/** A settlement can pay more than its payments are worth: a concrete run of two overlapping polls.
    Guarantees.SettlementExcess says exactly when. */
module Overlap {
  import opened Sums
  import opened Schema
  import opened Effects
  import opened Pipeline
  import opened Invariant
  import opened Guarantees
  import opened Delivery

  const SHOP: GroupKey := GroupKey(1, LowerUsd)

  const START: State := State(0, Tables(map[1 := Instant], {1}, map[], map[], map[], map[], []), map[], [])

  function Row(amount: int, key: Key): Payment {
    Payment(1, amount, LowerUsd, Initiated, key, 0, None)
  }

  /** The gateway takes payment p, the bank approves, and the ledger posts it. */
  function Capture(p: PaymentId, amount: int, i: nat, ids: LedgerIds): seq<Action> {
    [Insert(p, Request(1, amount, LowerUsd), p, 1), Mark(p, true), Publish(p), Post(i, ids)]
  }

  /** Payment 1 is captured and polled; payment 2 is captured and both are polled again, because the
      first event has not been handled yet; then both events are handled. */
  function OverlappingPolls(): seq<Action> {
    Capture(1, 100, 0, LedgerIds(1, 1)) + [Poll([SHOP])]
    + Capture(2, 200, 2, LedgerIds(2, 2)) + [Poll([SHOP])]
    + [Settle(1, SettleIds(1, 3, 4, 3))]
    + [Settle(3, SettleIds(2, 5, 6, 4))]
  }

  lemma {:induction false} ExecAppend(s0: State, a: seq<Action>, b: seq<Action>)
    ensures Exec(s0, a + b) == Exec(Exec(s0, a), b)
    decreases |b|
  {
    if b == [] {
      assert a + b == a;
    } else {
      assert (a + b)[..|a + b| - 1] == a + b[..|b| - 1];
      ExecAppend(s0, a, b[..|b| - 1]);
    }
  }

  lemma ExecOne(s: State, a: Action)
    ensures Exec(s, [a]) == Apply(s, a)
  {
    assert [a][..0] == [];
  }

  /** A state in which the payments 1..n are captured, unsettled and due. */
  ghost predicate Captured(s: State, payments: map<PaymentId, Payment>) {
    && s.now == 0 && s.tables.merchants == map[1 := Instant] && s.tables.tokens == {1}
    && s.tables.payments == payments && s.tables.settlements == map[]
    && UniqueAccounts(s.tables.accounts)
  }

  lemma CaptureWorks(s: State, p: PaymentId, amount: int, ids: LedgerIds)
    requires Captured(s, s.tables.payments) && amount > 0 && p !in s.tables.payments
    requires !KeyTaken(s.tables.payments, 1, p)
    requires UnusedGroup(s.tables.ledger, Txg(ids.group))
    requires FindAccount(s.tables.accounts, 1, MerchantPayable, LowerUsd).Some? || s.tables.accounts == map[]
    ensures var s' := Exec(s, Capture(p, amount, |s.log|, ids));
            && Captured(s', s.tables.payments[p := Row(amount, p)])
            && |s'.log| == |s.log| + 1 && s.log <= s'.log
            && FindAccount(s'.tables.accounts, 1, MerchantPayable, LowerUsd).Some?
            && (forall g :: UnusedGroup(s.tables.ledger, g) && g != Txg(ids.group) ==> UnusedGroup(s'.tables.ledger, g))
            && (forall n: nat :: Generated(n) in s'.tables.accounts ==>
                Generated(n) in s.tables.accounts || n == ids.payable)
  {
    var c := Capture(p, amount, |s.log|, ids);
    var s3 := GatewayWorks(s, p, amount);
    hide UnusedGroup, UniqueAccounts;
    CapturePosts(s3, |s.log|, p, amount, ids);
    hide Apply;
    ExecAppend(s, c[..3], [c[3]]);
    assert c == c[..3] + [c[3]];
    assert c[..3] == [Insert(p, Request(1, amount, LowerUsd), p, 1), Mark(p, true), Publish(p)];
    ExecOne(s3, c[3]);
    var s' := Exec(s, c);
    assert s'.tables.payments == s.tables.payments[p := Row(amount, p)];
  }

  lemma GatewayWorks(s: State, p: PaymentId, amount: int) returns (s3: State)
    requires Captured(s, s.tables.payments) && amount > 0 && p !in s.tables.payments
             && !KeyTaken(s.tables.payments, 1, p)
    ensures s3 == Exec(s, [Insert(p, Request(1, amount, LowerUsd), p, 1), Mark(p, true), Publish(p)])
    ensures s3.log == s.log + [Event(Created, Some(p), {}, 1, amount, LowerUsd)] && s3.now == s.now
    ensures s3.tables == s.tables.(payments := s.tables.payments[p := Row(amount, p).(status := Created)])
  {
    hide UniqueAccounts, KeyTaken;
    var a1, a2, a3 := Insert(p, Request(1, amount, LowerUsd), p, 1), Mark(p, true), Publish(p);
    ExecOne(s, a1);
    var s1 := Apply(s, a1);
    ExecAppend(s, [a1], [a2]);
    ExecOne(s1, a2);
    var s2 := Apply(s1, a2);
    ExecAppend(s, [a1, a2], [a3]);
    ExecOne(s2, a3);
    s3 := Apply(s2, a3);
    assert [a1] + [a2] == [a1, a2] && [a1, a2] + [a3] == [a1, a2, a3];
    assert s2.tables.payments == s.tables.payments[p := Row(amount, p).(status := Created)];
  }

  lemma CapturePosts(s: State, i: nat, p: PaymentId, amount: int, ids: LedgerIds)
    requires i < |s.log| && s.log[i] == Event(Created, Some(p), {}, 1, amount, LowerUsd) && amount > 0
    requires p in s.tables.payments && s.tables.payments[p].merchant == 1 && 1 in s.tables.merchants
    requires UniqueAccounts(s.tables.accounts)
    requires FindAccount(s.tables.accounts, 1, MerchantPayable, LowerUsd).Some? || s.tables.accounts == map[]
    requires UnusedGroup(s.tables.ledger, Txg(ids.group))
    ensures var t' := Apply(s, Post(i, ids)).tables;
            && Apply(s, Post(i, ids)) == s.(tables := t')
            && UniqueAccounts(t'.accounts)
            && t' == s.tables.(payments := t'.payments, accounts := t'.accounts, ledger := t'.ledger)
            && t'.payments == s.tables.payments[p := s.tables.payments[p].(status := Initiated, updatedAt := s.now)]
            && FindAccount(t'.accounts, 1, MerchantPayable, LowerUsd).Some?
            && (forall g :: UnusedGroup(s.tables.ledger, g) && g != Txg(ids.group) ==> UnusedGroup(t'.ledger, g))
            && (forall n: nat :: Generated(n) in t'.accounts ==> Generated(n) in s.tables.accounts || n == ids.payable)
  {
    PostCommits(s, i, p, amount, ids);
    var payable := PostShape(s.tables, s.now, s.log[i], ids);
    hide PostEffect, UniqueAccounts;
  }

  lemma PostCommits(s: State, i: nat, p: PaymentId, amount: int, ids: LedgerIds)
    requires i < |s.log| && s.log[i] == Event(Created, Some(p), {}, 1, amount, LowerUsd) && amount > 0
    requires p in s.tables.payments && s.tables.payments[p].merchant == 1 && 1 in s.tables.merchants
    requires UniqueAccounts(s.tables.accounts)
    requires FindAccount(s.tables.accounts, 1, MerchantPayable, LowerUsd).Some? || s.tables.accounts == map[]
    ensures PostEffect(s.tables, s.now, s.log[i], ids).Some?
    ensures var t' := PostEffect(s.tables, s.now, s.log[i], ids).value;
            && UniqueAccounts(t'.accounts)
            && (forall n: nat :: Generated(n) in t'.accounts ==> Generated(n) in s.tables.accounts || n == ids.payable)
  {
    var t0 := MarkInitiated(s.tables, s.now, p);
    var t1 := EnsureAccount(t0, 1, MerchantPayable, LowerUsd, ids.payable);
    assert t1.Some?;
    EnsureAccountShape(t0, 1, MerchantPayable, LowerUsd, ids.payable);
    EnsureSystemShape(t1.value, LowerUsd);
  }

  lemma PollWorks(s: State, payments: map<PaymentId, Payment>)
    requires Captured(s, payments)
    requires payments == map[1 := Row(100, 1)] || payments == map[1 := Row(100, 1), 2 := Row(200, 2)]
    ensures var s' := Apply(s, Poll([SHOP]));
            && s' == s.(log := s'.log) && |s'.log| == |s.log| + 1 && s.log <= s'.log
            && s'.log[|s.log|] == Event(Initiated, None, payments.Keys, 1, Total(payments, payments.Keys), LowerUsd)
            && 0 < Total(payments, payments.Keys) <= 300
  {
    var group := Group(s.tables, s.now, SHOP);
    assert group == payments.Keys;
    var f := (p: PaymentId) => AmountOf(payments, p);
    if payments == map[1 := Row(100, 1)] {
      assert payments.Keys == {} + {1};
      SumAdd<PaymentId>({}, f, 1);
    } else {
      assert payments.Keys == {1} + {2};
      assert {1} == {} + {1};
      SumAdd<PaymentId>({}, f, 1);
      SumAdd<PaymentId>({1}, f, 2);
    }
    SumCongruent(payments.Keys, f, p => AmountOf(payments, p));
    assert KeyOf(payments[1]) in DueKeys(s.tables, s.now);
  }

  lemma SettleWorks(s: State, i: nat, ids: SettleIds, due: set<PaymentId>, amount: int)
    requires i < |s.log| && s.log[i] == Event(Initiated, None, due, 1, amount, LowerUsd) && amount > 0 && due != {}
    requires 1 in s.tables.merchants && ids.settlement !in s.tables.settlements && Hits(s.tables.payments, due) != {}
    requires FindAccount(s.tables.accounts, 1, MerchantPayable, LowerUsd).Some?
    requires FindAccount(s.tables.accounts, 1, MerchantSettlement, LowerUsd).Some?
             || Generated(ids.bank) !in s.tables.accounts
    ensures SettleEffect(s.tables, s.now, s.log[i], ids).Some?
    ensures var t' := SettleEffect(s.tables, s.now, s.log[i], ids).value;
            && t'.payments == Attach(s.tables.payments, s.now, Hits(s.tables.payments, due), ids.settlement)
            && t'.settlements.Keys == s.tables.settlements.Keys + {ids.settlement}
            && t'.merchants == s.tables.merchants
            && (forall g :: UnusedGroup(s.tables.ledger, g) && g != Txg(ids.group) ==> UnusedGroup(t'.ledger, g))
            && FindAccount(t'.accounts, 1, MerchantPayable, LowerUsd).Some?
            && FindAccount(t'.accounts, 1, MerchantSettlement, LowerUsd).Some?
  {
    var e := s.log[i];
    var t1 := InsertSettlement(s.tables, ids.settlement, Settlement(1, amount, LowerUsd)).value;
    var t2 := t1.(payments := Attach(t1.payments, s.now, Hits(t1.payments, due), ids.settlement));
    var t3 := EnsureAccount(t2, 1, MerchantSettlement, LowerUsd, ids.bank);
    TakenIsFound(t2.accounts, 1, MerchantSettlement, LowerUsd);
    EnsureAccountShape(t2, 1, MerchantSettlement, LowerUsd, ids.bank);
    assert SettleEffect(s.tables, s.now, e, ids).Some?;
    var payable, bank := SettleShape(s.tables, s.now, e, ids);
  }

  lemma AfterFirst() returns (s: State)
    ensures s == Exec(START, Capture(1, 100, 0, LedgerIds(1, 1)) + [Poll([SHOP])])
    ensures Captured(s, map[1 := Row(100, 1)]) && |s.log| == 2
    ensures s.log[1] == Event(Initiated, None, {1}, 1, Total(s.tables.payments, {1}), LowerUsd) && s.log[1].amount > 0
    ensures FindAccount(s.tables.accounts, 1, MerchantPayable, LowerUsd).Some?
    ensures forall n: nat :: n > 1 ==> UnusedGroup(s.tables.ledger, Txg(n)) && Generated(n) !in s.tables.accounts
  {
    var c := Capture(1, 100, 0, LedgerIds(1, 1));
    CaptureWorks(START, 1, 100, LedgerIds(1, 1));
    var s1 := Exec(START, c);
    assert s1.tables.payments == map[1 := Row(100, 1)];
    assert forall g :: UnusedGroup(START.tables.ledger, g);
    PollWorks(s1, s1.tables.payments);
    ExecAppend(START, c, [Poll([SHOP])]);
    ExecOne(s1, Poll([SHOP]));
    s := Apply(s1, Poll([SHOP]));
    assert s.tables.payments.Keys == {1};
  }

  lemma AfterSecond(s: State) returns (s': State)
    requires Captured(s, map[1 := Row(100, 1)]) && |s.log| == 2
    requires FindAccount(s.tables.accounts, 1, MerchantPayable, LowerUsd).Some?
    requires forall n: nat :: n > 1 ==> UnusedGroup(s.tables.ledger, Txg(n)) && Generated(n) !in s.tables.accounts
    ensures s' == Exec(s, Capture(2, 200, 2, LedgerIds(2, 2)) + [Poll([SHOP])])
    ensures Captured(s', map[1 := Row(100, 1), 2 := Row(200, 2)]) && |s'.log| == 4 && s.log <= s'.log
    ensures s'.log[3] == Event(Initiated, None, {1, 2}, 1, Total(s'.tables.payments, {1, 2}), LowerUsd)
            && s'.log[3].amount > 0
    ensures FindAccount(s'.tables.accounts, 1, MerchantPayable, LowerUsd).Some?
    ensures forall n: nat :: n > 2 ==> UnusedGroup(s'.tables.ledger, Txg(n)) && Generated(n) !in s'.tables.accounts
  {
    var c := Capture(2, 200, 2, LedgerIds(2, 2));
    CaptureWorks(s, 2, 200, LedgerIds(2, 2));
    var s1 := Exec(s, c);
    assert s1.tables.payments == map[1 := Row(100, 1), 2 := Row(200, 2)];
    PollWorks(s1, s1.tables.payments);
    ExecAppend(s, c, [Poll([SHOP])]);
    ExecOne(s1, Poll([SHOP]));
    s' := Apply(s1, Poll([SHOP]));
    assert s'.tables.payments.Keys == {1, 2};
  }

  lemma AfterFirstSettled(s: State) returns (s': State)
    requires Captured(s, map[1 := Row(100, 1), 2 := Row(200, 2)]) && |s.log| == 4
    requires s.log[1] == Event(Initiated, None, {1}, 1, Total(map[1 := Row(100, 1)], {1}), LowerUsd)
             && s.log[1].amount > 0
    requires FindAccount(s.tables.accounts, 1, MerchantPayable, LowerUsd).Some?
    requires forall n: nat :: n > 2 ==> UnusedGroup(s.tables.ledger, Txg(n)) && Generated(n) !in s.tables.accounts
    ensures s' == Exec(s, [Settle(1, SettleIds(1, 3, 4, 3))])
    ensures s'.log == s.log && s'.tables.merchants == s.tables.merchants && 2 !in s'.tables.settlements
    ensures s'.tables.payments.Keys == {1, 2} && s'.tables.payments[1].settlement.Some?
            && s'.tables.payments[2].settlement.None?
    ensures FindAccount(s'.tables.accounts, 1, MerchantPayable, LowerUsd).Some?
    ensures FindAccount(s'.tables.accounts, 1, MerchantSettlement, LowerUsd).Some?
    ensures UnusedGroup(s'.tables.ledger, Txg(4))
  {
    var ids := SettleIds(1, 3, 4, 3);
    assert Hits(s.tables.payments, {1}) == {1};
    SettleWorks(s, 1, ids, {1}, s.log[1].amount);
    hide SettleEffect;
    s' := Apply(s, Settle(1, ids));
    ExecOne(s, Settle(1, ids));
  }

  lemma LastSettle(s: State)
    requires |s.log| == 4 && s.tables.payments.Keys == {1, 2}
    requires s.log[3].status == Initiated && s.log[3] == Event(Initiated, None, {1, 2}, 1, s.log[3].amount, LowerUsd)
             && s.log[3].amount > 0
    requires 1 in s.tables.merchants && 2 !in s.tables.settlements && UnusedGroup(s.tables.ledger, Txg(4))
    requires s.tables.payments[1].settlement.Some? && s.tables.payments[2].settlement.None?
    requires FindAccount(s.tables.accounts, 1, MerchantPayable, LowerUsd).Some?
    requires FindAccount(s.tables.accounts, 1, MerchantSettlement, LowerUsd).Some?
    ensures var ids := SettleIds(2, 5, 6, 4);
            && SettleEffect(s.tables, s.now, s.log[3], ids).Some?
            && Exec(s, [Settle(3, ids)]) == s.(tables := SettleEffect(s.tables, s.now, s.log[3], ids).value)
            && TakenBefore(s.tables, s.log[3]) != {}
  {
    var ids := SettleIds(2, 5, 6, 4);
    assert 2 in Hits(s.tables.payments, {1, 2});
    SettleWorks(s, 3, ids, {1, 2}, s.log[3].amount);
    hide SettleEffect;
    ExecOne(s, Settle(3, ids));
    assert 1 in TakenBefore(s.tables, s.log[3]);
  }

  /** It is false that every settlement pays exactly its payments: at the end of this run settlement 2
      is worth more than the one payment attached to it. */
  lemma OverlapOverpays()
    ensures Initial(START)
    ensures var t := Exec(START, OverlappingPolls()).tables;
            && 2 in t.settlements
            && t.settlements[2].amount > Total(t.payments, Attached(t.payments, 2))
  {
    var a1 := Capture(1, 100, 0, LedgerIds(1, 1)) + [Poll([SHOP])];
    var a2 := Capture(2, 200, 2, LedgerIds(2, 2)) + [Poll([SHOP])];
    var a3 := [Settle(1, SettleIds(1, 3, 4, 3))];
    var a4 := [Settle(3, SettleIds(2, 5, 6, 4))];
    assert OverlappingPolls() == a1 + a2 + a3 + a4;
    var s1 := AfterFirst();
    var s2 := AfterSecond(s1);
    var s3 := AfterFirstSettled(s2);
    LastSettle(s3);
    hide Captured, UnusedGroup, FindAccount, SettleEffect, Exec, Apply;
    ExecAppend(START, a1, a2);
    ExecAppend(START, a1 + a2, a3);
    ExecAppend(START, a1 + a2 + a3, a4);
    SettlementExcess(START, a1 + a2 + a3, 3, SettleIds(2, 5, 6, 4));
  }
}
