/** Every step keeps the pipeline's invariant and undoes none of the facts in Evolves. */
module Invariant {
  import opened Sums
  import opened Schema
  import opened Effects
  import opened Pipeline

  // ----- appending one transaction to the ledger -----

  lemma PostingsPair(l: seq<Entry>, d: Entry, c: Entry, p: PaymentId)
    ensures Postings(l + [d, c], p)
            == Postings(l, p) + (if IsCapture(d, p) then 1 else 0) + (if IsCapture(c, p) then 1 else 0)
  {
    assert (l + [d, c])[..|l| + 1] == l + [d];
    assert (l + [d])[..|l|] == l;
  }

  lemma NetPair(l: seq<Entry>, d: Entry, c: Entry, a: AccountId)
    ensures Net(l + [d, c], a)
            == Net(l, a) + (if d.account == a then Signed(d) else 0) + (if c.account == a then Signed(c) else 0)
  {
    assert (l + [d, c])[..|l| + 1] == l + [d];
    assert (l + [d])[..|l|] == l;
  }

  lemma PairsAppend(l: seq<Entry>, d: Entry, c: Entry)
    requires PairsOk(l) && UnusedGroup(l, d.group)
    requires d.kind == Debit && c.kind == Credit && c.group == d.group
    requires c.payment == d.payment && c.amount == d.amount && c.currency == d.currency
    ensures PairsOk(l + [d, c])
  {
    var l' := l + [d, c];
    forall i: nat | i < |l'| && i % 2 == 0
      ensures PairAt(l', i)
    {
      if i < |l| {
        assert PairAt(l, i);
      }
    }
  }

  // ----- facts that survive because the tables only evolve -----

  lemma EventsStable(s: State, s': State)
    requires EventsOk(s) && Evolves(s, s')
    ensures forall i :: 0 <= i < |s.log| ==> EventOk(s', s.log[i])
  {
    forall i | 0 <= i < |s.log|
      ensures EventOk(s', s.log[i])
    {
      var e := s.log[i];
      assert EventOk(s, e);
      if e.status == Initiated {
        TotalFrame(s.tables.payments, s'.tables.payments, e.paymentIds);
      }
    }
  }

  lemma EventsKept(s: State, s': State)
    requires EventsOk(s) && Evolves(s, s') && s'.log == s.log
    ensures EventsOk(s')
  {
    EventsStable(s, s');
  }

  lemma AccountsKept(before: map<AccountId, Account>, after: map<AccountId, Account>)
    requires AccountsOk(before) && AccountsGrow(before, after)
    ensures AccountsOk(after)
  {
  }

  lemma EvolvesReflexive(s: State)
    ensures Evolves(s, s)
  {
  }

  lemma EntriesStable(s: State, s': State)
    requires EntriesOk(s.tables) && Evolves(s, s')
    ensures forall i :: 0 <= i < |s.tables.ledger| ==> EntryOk(s'.tables, s.tables.ledger[i])
  {
    forall i | 0 <= i < |s.tables.ledger|
      ensures EntryOk(s'.tables, s.tables.ledger[i])
    {
      assert EntryOk(s.tables, s.tables.ledger[i]);
    }
  }

  lemma EntriesKept(s: State, s': State)
    requires EntriesOk(s.tables) && Evolves(s, s') && s'.tables.ledger == s.tables.ledger
    ensures EntriesOk(s'.tables)
  {
    EntriesStable(s, s');
  }

  lemma {:induction false} PostingsUnused(t: Tables, n: nat, p: PaymentId)
    requires EntriesOk(t) && n <= |t.ledger| && p !in t.payments
    ensures Postings(t.ledger[..n], p) == 0
  {
    if n > 0 {
      assert EntryOk(t, t.ledger[n - 1]);
      assert t.ledger[..n][..n - 1] == t.ledger[..n - 1];
      PostingsUnused(t, n - 1, p);
    }
  }

  lemma {:induction false} NetUnused(t: Tables, n: nat, a: AccountId)
    requires EntriesOk(t) && n <= |t.ledger| && a !in t.accounts
    ensures Net(t.ledger[..n], a) == 0
  {
    if n > 0 {
      assert EntryOk(t, t.ledger[n - 1]);
      assert t.ledger[..n][..n - 1] == t.ledger[..n - 1];
      NetUnused(t, n - 1, a);
    }
  }

  // ----- one lemma per step -----

  /** Steps that leave payments, settlements, refunds, accounts and ledger alone. */
  lemma QuietStep(s: State, s': State)
    requires Inv(s) && s'.now >= s.now && s.log <= s'.log && s'.phases == s.phases
    requires s'.tables == s.tables.(merchants := s'.tables.merchants)
    requires s.tables.merchants.Keys <= s'.tables.merchants.Keys
    requires forall i :: |s.log| <= i < |s'.log| ==> EventOk(s', s'.log[i])
    ensures Inv(s') && Evolves(s, s')
  {
    EventsStable(s, s');
    EntriesStable(s, s');
    forall p | p in s'.tables.payments ensures PaymentOk(s', p) { assert PaymentOk(s, p); }
    forall sid | sid in s'.tables.settlements
      ensures SettlementOk(s'.tables, sid)
    {
      assert SettlementOk(s.tables, sid);
    }
  }

  lemma InsertStep(s: State, p: PaymentId, req: Request, key: Key, token: Token)
    requires Inv(s)
    ensures var s' := Apply(s, Insert(p, req, key, token)); Inv(s') && Evolves(s, s')
  {
    hide PairsOk, EntriesOk, PaymentsOk, EventsOk, SettlementsOk, RefundsOk, AccountsOk, Evolves;
    var s' := Apply(s, Insert(p, req, key, token));
    EvolvesReflexive(s);
    if s' != s {
      InsertPayments(s, p, req, key, token);
      EventsKept(s, s');
      EntriesKept(s, s');
      InsertSettlements(s.tables, s'.tables, p);
      RefundsFrame(s, s');
    }
  }

  lemma InsertPayments(s: State, p: PaymentId, req: Request, key: Key, token: Token)
    requires PaymentsOk(s) && EntriesOk(s.tables)
    ensures var s' := Apply(s, Insert(p, req, key, token)); PaymentsOk(s') && Evolves(s, s')
  {
    var s' := Apply(s, Insert(p, req, key, token));
    if s' != s {
      PostingsUnused(s.tables, |s.tables.ledger|, p);
      assert s.tables.ledger[..|s.tables.ledger|] == s.tables.ledger;
      forall q | q in s'.tables.payments ensures PaymentOk(s', q) {
        if q != p { assert PaymentOk(s, q); }
      }
    }
  }

  lemma InsertSettlements(t: Tables, t': Tables, p: PaymentId)
    requires SettlementsOk(t) && p in t'.payments && p !in t.payments && t'.payments[p].settlement.None?
    requires t' == t.(payments := t.payments[p := t'.payments[p]])
    ensures SettlementsOk(t')
  {
    SettlementsFrame(t, t');
  }

  /** A settlement keeps its attached payments when no settlement id changes and new rows have none. */
  lemma SettlementsFrame(t: Tables, t': Tables)
    requires SettlementsOk(t) && t'.settlements == t.settlements
    requires forall p :: p in t.payments ==> p in t'.payments && t'.payments[p].settlement == t.payments[p].settlement
                                             && t'.payments[p].amount == t.payments[p].amount
    requires forall p :: p in t'.payments && p !in t.payments ==> t'.payments[p].settlement.None?
    ensures SettlementsOk(t')
  {
    forall sid | sid in t'.settlements ensures SettlementOk(t', sid) {
      assert SettlementOk(t, sid);
      assert Attached(t'.payments, sid) == Attached(t.payments, sid);
      TotalFrame(t.payments, t'.payments, Attached(t.payments, sid));
    }
  }

  lemma MarkStep(s: State, p: PaymentId, approved: bool)
    requires Inv(s)
    ensures var s' := Apply(s, Mark(p, approved)); Inv(s') && Evolves(s, s')
  {
    hide PairsOk, EntriesOk, PaymentsOk, EventsOk, SettlementsOk, RefundsOk, AccountsOk, Evolves;
    var s' := Apply(s, Mark(p, approved));
    EvolvesReflexive(s);
    if p in s.phases && s.phases[p].Inserted? && p in s.tables.payments {
      MarkPayments(s, p, approved);
      EventsKept(s, s');
      EntriesKept(s, s');
      MarkSettlements(s, p, approved);
      RefundsFrame(s, s');
    }
  }

  lemma MarkSettlements(s: State, p: PaymentId, approved: bool)
    requires SettlementsOk(s.tables)
    ensures SettlementsOk(Apply(s, Mark(p, approved)).tables)
  {
    if Apply(s, Mark(p, approved)) != s {
      SettlementsFrame(s.tables, Apply(s, Mark(p, approved)).tables);
    }
  }

  lemma MarkPayments(s: State, p: PaymentId, approved: bool)
    requires PaymentsOk(s) && p in s.phases && s.phases[p].Inserted?
    ensures var s' := Apply(s, Mark(p, approved)); PaymentsOk(s') && Evolves(s, s')
  {
    hide PaymentOk, RowEvolves;
    var s' := Apply(s, Mark(p, approved));
    forall q | q in s.tables.payments
      ensures q in s'.tables.payments && PaymentOk(s', q) && RowEvolves(s.tables.payments[q], s'.tables.payments[q])
    {
      assert PaymentOk(s, q);
      MarkOnePayment(s, p, approved, q);
    }
  }

  lemma MarkOnePayment(s: State, p: PaymentId, approved: bool, q: PaymentId)
    requires q in s.tables.payments && PaymentOk(s, q) && p in s.phases && s.phases[p].Inserted?
    ensures var s' := Apply(s, Mark(p, approved));
            q in s'.tables.payments && PaymentOk(s', q) && RowEvolves(s.tables.payments[q], s'.tables.payments[q])
  {
    hide Postings;
  }

  /** Refunds stay right when none is added and no settled payment becomes processed again. */
  lemma RefundsFrame(s: State, s': State)
    requires RefundsOk(s.tables) && Evolves(s, s') && s'.tables.refunds == s.tables.refunds
    ensures RefundsOk(s'.tables)
  {
    forall r | r in s'.tables.refunds
      ensures var f := s'.tables.refunds[r];
              && f.payment in s'.tables.payments && f.currency == LowerUsd
              && f.merchant == s'.tables.payments[f.payment].merchant
                 && f.amount == s'.tables.payments[f.payment].amount
              && s'.tables.payments[f.payment].settlement.Some? && s'.tables.payments[f.payment].status != Processed
    {
      var p := s.tables.refunds[r].payment;
      assert RowEvolves(s.tables.payments[p], s'.tables.payments[p]);
    }
  }

  /** A step that appends one fresh, well-formed pair keeps the ledger in order. */
  lemma LedgerAppend(s: State, s': State, d: Entry, c: Entry)
    requires PairsOk(s.tables.ledger) && EntriesOk(s.tables) && Evolves(s, s')
    requires s'.tables.ledger == s.tables.ledger + [d, c] && UnusedGroup(s.tables.ledger, d.group)
    requires d.kind == Debit && c.kind == Credit && c.group == d.group
    requires c.payment == d.payment && c.amount == d.amount && c.currency == d.currency
    requires EntryOk(s'.tables, d) && EntryOk(s'.tables, c)
    ensures PairsOk(s'.tables.ledger) && EntriesOk(s'.tables)
  {
    PairsAppend(s.tables.ledger, d, c);
    EntriesStable(s, s');
  }

  lemma PostStep(s: State, i: nat, ids: LedgerIds)
    requires Inv(s)
    ensures var s' := Apply(s, Post(i, ids)); Inv(s') && Evolves(s, s')
  {
    var s' := Apply(s, Post(i, ids));
    EvolvesReflexive(s);
    if s' != s {
      assert EventOk(s, s.log[i]);
      hide PairsOk, EntriesOk, PaymentsOk, EventsOk, SettlementsOk, RefundsOk, AccountsOk, Evolves;
      var _ := PostShape(s.tables, s.now, s.log[i], ids);
      AccountsKept(s.tables.accounts, s'.tables.accounts);
      PostPayments(s, s', i, ids);
      PostLedger(s, s', i, ids);
      EventsKept(s, s');
      PostSettlements(s, i, ids);
      RefundsFrame(s, s');
    }
  }

  lemma PostSettlements(s: State, i: nat, ids: LedgerIds)
    requires SettlementsOk(s.tables) && i < |s.log| && PostEffect(s.tables, s.now, s.log[i], ids).Some?
    ensures SettlementsOk(PostEffect(s.tables, s.now, s.log[i], ids).value)
  {
    var _ := PostShape(s.tables, s.now, s.log[i], ids);
    SettlementsFrame(s.tables, PostEffect(s.tables, s.now, s.log[i], ids).value);
  }

  lemma PostPayments(s: State, s': State, i: nat, ids: LedgerIds)
    requires PaymentsOk(s) && i < |s.log| && EventOk(s, s.log[i])
    requires PostEffect(s.tables, s.now, s.log[i], ids).Some?
    requires s' == s.(tables := PostEffect(s.tables, s.now, s.log[i], ids).value)
    ensures PaymentsOk(s') && Evolves(s, s')
  {
    hide PostEffect, PaymentOk, RowEvolves, EventOk;
    var _ := PostShape(s.tables, s.now, s.log[i], ids);
    forall q | q in s.tables.payments
      ensures PaymentOk(s', q) && RowEvolves(s.tables.payments[q], s'.tables.payments[q])
    {
      assert PaymentOk(s, q);
      PostOnePayment(s, s', i, ids, q);
    }
  }

  lemma PostOnePayment(s: State, s': State, i: nat, ids: LedgerIds, q: PaymentId)
    requires q in s.tables.payments && PaymentOk(s, q) && i < |s.log| && EventOk(s, s.log[i])
    requires PostEffect(s.tables, s.now, s.log[i], ids).Some?
    requires s' == s.(tables := PostEffect(s.tables, s.now, s.log[i], ids).value)
    ensures q in s'.tables.payments && PaymentOk(s', q) && RowEvolves(s.tables.payments[q], s'.tables.payments[q])
  {
    var t, t' := s.tables, s'.tables;
    var _ := PostShape(t, s.now, s.log[i], ids);
    PostingsPair(t.ledger, t'.ledger[|t.ledger|], t'.ledger[|t.ledger| + 1], q);
  }

  lemma PostLedger(s: State, s': State, i: nat, ids: LedgerIds)
    requires PairsOk(s.tables.ledger) && EntriesOk(s.tables) && PaymentsOk(s) && i < |s.log| && EventOk(s, s.log[i])
    requires UnusedGroup(s.tables.ledger, Txg(ids.group))
    requires PostEffect(s.tables, s.now, s.log[i], ids).Some?
    requires s' == s.(tables := PostEffect(s.tables, s.now, s.log[i], ids).value)
    requires Evolves(s, s')
    ensures PairsOk(s'.tables.ledger) && EntriesOk(s'.tables)
  {
    var t, t' := s.tables, s'.tables;
    var payable := PostShape(t, s.now, s.log[i], ids);
    assert PaymentOk(s, s.log[i].paymentId.value);
    LedgerAppend(s, s', t'.ledger[|t.ledger|], t'.ledger[|t.ledger| + 1]);
  }

  lemma SettleStep(s: State, i: nat, ids: SettleIds)
    requires Inv(s)
    ensures var s' := Apply(s, Settle(i, ids)); Inv(s') && Evolves(s, s')
  {
    var s' := Apply(s, Settle(i, ids));
    EvolvesReflexive(s);
    if s' != s {
      assert EventOk(s, s.log[i]);
      hide PairsOk, EntriesOk, PaymentsOk, EventsOk, SettlementsOk, RefundsOk, AccountsOk, Evolves;
      var _, _ := SettleShape(s.tables, s.now, s.log[i], ids);
      AccountsKept(s.tables.accounts, s'.tables.accounts);
      SettlePayments(s, s', i, ids);
      SettleLedger(s, s', i, ids);
      EventsKept(s, s');
      SettleAttaches(s, i, ids);
      RefundsFrame(s, s');
    }
  }

  lemma SettlePayments(s: State, s': State, i: nat, ids: SettleIds)
    requires PaymentsOk(s) && i < |s.log| && EventOk(s, s.log[i])
    requires SettleEffect(s.tables, s.now, s.log[i], ids).Some?
    requires s' == s.(tables := SettleEffect(s.tables, s.now, s.log[i], ids).value)
    ensures PaymentsOk(s') && Evolves(s, s')
  {
    var _, _ := SettleShape(s.tables, s.now, s.log[i], ids);
    forall q | q in s.tables.payments
      ensures PaymentOk(s', q) && RowEvolves(s.tables.payments[q], s'.tables.payments[q])
    {
      SettleOnePayment(s, s', i, ids, q);
    }
  }

  lemma SettleOnePayment(s: State, s': State, i: nat, ids: SettleIds, q: PaymentId)
    requires q in s.tables.payments && PaymentOk(s, q) && i < |s.log| && EventOk(s, s.log[i])
    requires SettleEffect(s.tables, s.now, s.log[i], ids).Some?
    requires s' == s.(tables := SettleEffect(s.tables, s.now, s.log[i], ids).value)
    ensures q in s'.tables.payments && PaymentOk(s', q) && RowEvolves(s.tables.payments[q], s'.tables.payments[q])
  {
    var t, t' := s.tables, s'.tables;
    var _, _ := SettleShape(t, s.now, s.log[i], ids);
    PostingsPair(t.ledger, t'.ledger[|t.ledger|], t'.ledger[|t.ledger| + 1], q);
  }

  lemma SettleLedger(s: State, s': State, i: nat, ids: SettleIds)
    requires PairsOk(s.tables.ledger) && EntriesOk(s.tables) && i < |s.log|
    requires UnusedGroup(s.tables.ledger, Txg(ids.group))
    requires SettleEffect(s.tables, s.now, s.log[i], ids).Some?
    requires s' == s.(tables := SettleEffect(s.tables, s.now, s.log[i], ids).value)
    requires Evolves(s, s')
    ensures PairsOk(s'.tables.ledger) && EntriesOk(s'.tables)
  {
    var t, t' := s.tables, s'.tables;
    var payable, bank := SettleShape(t, s.now, s.log[i], ids);
    LedgerAppend(s, s', t'.ledger[|t.ledger|], t'.ledger[|t.ledger| + 1]);
  }

  /** The arithmetic of one committed settlement: the new row gets exactly the payments the update
      hit, and its amount exceeds their sum by what the event's other payments add up to. */
  lemma SettleAttaches(s: State, i: nat, ids: SettleIds)
    requires PaymentsOk(s) && SettlementsOk(s.tables) && i < |s.log| && EventOk(s, s.log[i])
    requires SettleEffect(s.tables, s.now, s.log[i], ids).Some?
    ensures var t' := SettleEffect(s.tables, s.now, s.log[i], ids).value;
            var hits := Hits(s.tables.payments, s.log[i].paymentIds);
            && SettlementsOk(t') && ids.settlement in t'.settlements
            && Attached(t'.payments, ids.settlement) == hits
            && t'.settlements[ids.settlement].amount
               == Total(t'.payments, hits) + Total(t'.payments, s.log[i].paymentIds - hits)
  {
    hide PaymentsOk, PaymentOk;
    var t, e := s.tables, s.log[i];
    var t' := SettleEffect(t, s.now, e, ids).value;
    var hits := Hits(t.payments, e.paymentIds);
    var _, _ := SettleShape(t, s.now, e, ids);
    hide SettleEffect;
    NewlyAttached(s, t', hits, ids.settlement);
    TotalFrame(t.payments, t'.payments, e.paymentIds);
    TotalSplit(t'.payments, e.paymentIds, hits);
    TotalNotNegative(s, t'.payments, e.paymentIds - hits);
    OlderSettlements(t, t', hits, ids.settlement);
  }

  lemma TotalNotNegative(s: State, payments: map<PaymentId, Payment>, ids: set<PaymentId>)
    requires PaymentsOk(s) && ids <= s.tables.payments.Keys && SameAmounts(s.tables.payments, payments, ids)
    ensures Total(payments, ids) >= 0
    ensures Total(payments, ids) == 0 <==> ids == {}
  {
    forall p | p in ids ensures AmountOf(payments, p) > 0 { assert PaymentOk(s, p); }
    SumBounds(ids, p => AmountOf(payments, p));
  }

  /** A settlement id the table does not hold yet is attached to no payment but the new hits. */
  lemma NewlyAttached(s: State, t': Tables, hits: set<PaymentId>, sid: SettlementId)
    requires PaymentsOk(s) && sid !in s.tables.settlements && hits <= s.tables.payments.Keys
    requires t'.payments == Attach(s.tables.payments, s.now, hits, sid)
    ensures Attached(t'.payments, sid) == hits
  {
    forall p | p in s.tables.payments ensures s.tables.payments[p].settlement != Some(sid) { assert PaymentOk(s, p); }
  }

  lemma TotalSplit(payments: map<PaymentId, Payment>, ids: set<PaymentId>, part: set<PaymentId>)
    requires part <= ids
    ensures Total(payments, ids) == Total(payments, part) + Total(payments, ids - part)
  {
    SumUnion(part, ids - part, p => AmountOf(payments, p));
    assert part + (ids - part) == ids;
  }

  lemma OlderSettlements(t: Tables, t': Tables, hits: set<PaymentId>, sid: SettlementId)
    requires SettlementsOk(t) && sid !in t.settlements && hits <= t.payments.Keys
    requires forall p :: p in hits ==> t.payments[p].settlement.None?
    requires t'.payments.Keys == t.payments.Keys
    requires forall p :: p in t.payments ==> t'.payments[p].amount == t.payments[p].amount
    requires forall p :: p in t.payments ==>
               t'.payments[p].settlement == if p in hits then Some(sid) else t.payments[p].settlement
    requires forall x :: x in t.settlements ==> x in t'.settlements && t'.settlements[x] == t.settlements[x]
    ensures forall x :: x in t.settlements ==> SettlementOk(t', x)
  {
    forall x | x in t.settlements ensures SettlementOk(t', x) {
      assert SettlementOk(t, x);
      assert Attached(t'.payments, x) == Attached(t.payments, x);
      TotalFrame(t.payments, t'.payments, Attached(t.payments, x));
    }
  }

  lemma RefundStep(s: State, m: MerchantId, p: PaymentId, amount: int, r: RefundId)
    requires Inv(s)
    ensures var s' := Apply(s, IssueRefund(m, p, amount, r)); Inv(s') && Evolves(s, s')
  {
    hide PairsOk, EntriesOk, PaymentsOk, EventsOk, SettlementsOk, RefundsOk, AccountsOk, Evolves;
    var s' := Apply(s, IssueRefund(m, p, amount, r));
    EvolvesReflexive(s);
    if s' != s {
      var _ := RefundShape(s.tables, m, p, amount, r);
      RefundPayments(s, s', m, p, amount, r);
      RefundLedger(s, s', m, p, amount, r);
      RefundRefunds(s, m, p, amount, r);
      EventsKept(s, s');
      RefundSettlements(s.tables, m, p, amount, r);
    }
  }

  lemma RefundPayments(s: State, s': State, m: MerchantId, p: PaymentId, amount: int, r: RefundId)
    requires PaymentsOk(s)
    requires RefundEffect(s.tables, m, p, amount, r).Some?
    requires s' == s.(tables := RefundEffect(s.tables, m, p, amount, r).value)
    ensures PaymentsOk(s') && Evolves(s, s')
  {
    hide RefundEffect, PaymentOk, RowEvolves;
    var _ := RefundShape(s.tables, m, p, amount, r);
    forall q | q in s.tables.payments
      ensures PaymentOk(s', q) && RowEvolves(s.tables.payments[q], s'.tables.payments[q])
    {
      assert PaymentOk(s, q);
      RefundOnePayment(s, s', m, p, amount, r, q);
    }
  }

  lemma RefundOnePayment(s: State, s': State, m: MerchantId, p: PaymentId, amount: int, r: RefundId, q: PaymentId)
    requires q in s.tables.payments && PaymentOk(s, q)
    requires RefundEffect(s.tables, m, p, amount, r).Some?
    requires s' == s.(tables := RefundEffect(s.tables, m, p, amount, r).value)
    ensures q in s'.tables.payments && PaymentOk(s', q) && RowEvolves(s.tables.payments[q], s'.tables.payments[q])
  {
    var t, t' := s.tables, s'.tables;
    var _ := RefundShape(t, m, p, amount, r);
    PostingsPair(t.ledger, t'.ledger[|t.ledger|], t'.ledger[|t.ledger| + 1], q);
  }

  lemma RefundRefunds(s: State, m: MerchantId, p: PaymentId, amount: int, r: RefundId)
    requires PaymentsOk(s) && RefundsOk(s.tables)
    requires RefundEffect(s.tables, m, p, amount, r).Some?
    ensures RefundsOk(RefundEffect(s.tables, m, p, amount, r).value)
  {
    var _ := RefundShape(s.tables, m, p, amount, r);
    assert PaymentOk(s, p);
  }

  lemma RefundSettlements(t: Tables, m: MerchantId, p: PaymentId, amount: int, r: RefundId)
    requires SettlementsOk(t)
    requires RefundEffect(t, m, p, amount, r).Some?
    ensures SettlementsOk(RefundEffect(t, m, p, amount, r).value)
  {
    var _ := RefundShape(t, m, p, amount, r);
    SettlementsFrame(t, RefundEffect(t, m, p, amount, r).value);
  }

  lemma RefundLedger(s: State, s': State, m: MerchantId, p: PaymentId, amount: int, r: RefundId)
    requires PairsOk(s.tables.ledger) && EntriesOk(s.tables)
    requires RefundEffect(s.tables, m, p, amount, r).Some?
    requires s' == s.(tables := RefundEffect(s.tables, m, p, amount, r).value)
    requires Evolves(s, s')
    ensures PairsOk(s'.tables.ledger) && EntriesOk(s'.tables)
  {
    var t, t' := s.tables, s'.tables;
    var payable := RefundShape(t, m, p, amount, r);
    forall k | 0 <= k < |t.ledger| ensures t.ledger[k].group != RefundGroup(r) { assert EntryOk(t, t.ledger[k]); }
    LedgerAppend(s, s', t'.ledger[|t.ledger|], t'.ledger[|t.ledger| + 1]);
  }

  lemma PollStep(s: State, keys: seq<GroupKey>)
    requires Inv(s)
    ensures var s' := Apply(s, Poll(keys)); Inv(s') && Evolves(s, s')
  {
    var s' := Apply(s, Poll(keys));
    if CanPublish(s.tables, s.now, keys) {
      forall i | |s.log| <= i < |s'.log| ensures EventOk(s', s'.log[i]) {
        var k := keys[i - |s.log|];
        assert k in DueKeys(s.tables, s.now);
        var p :| p in s.tables.payments && DueRow(s.tables.merchants, s.now, s.tables.payments[p])
          && KeyOf(s.tables.payments[p]) == k;
        assert p in Group(s.tables, s.now, k);
      }
    }
    QuietStep(s, s');
  }

  lemma PublishStep(s: State, p: PaymentId)
    requires Inv(s)
    ensures var s' := Apply(s, Publish(p)); Inv(s') && Evolves(s, s')
  {
    var s' := Apply(s, Publish(p));
    if p in s.phases && s.phases[p].Marked? { assert PaymentOk(s, p); }
    QuietStep(s, s');
  }

  /** The admin service's own settlement never commits: no code creates the account it debits. */
  lemma AdminSettleRollsBack(s: State, m: MerchantId, sid: SettlementId, group: nat)
    requires Inv(s)
    ensures AdminSettleEffect(s.tables, s.now, m, sid, group).None?
  {
    if AdminSettleEffect(s.tables, s.now, m, sid, group).Some? {
      AdminSettleNeedsAccount(s.tables, s.now, m, sid, group);
    }
  }

  /** No money moves, no payment is settled, and a row changes at most from created to failed. */
  ghost predicate Harmless(t: Tables, t': Tables) {
    && t'.ledger == t.ledger && t'.settlements == t.settlements && t'.refunds == t.refunds && t'.accounts == t.accounts
    && (forall p :: p in t.payments ==> p in t'.payments)
    && (forall p :: p in t.payments && t'.payments[p] != t.payments[p] ==>
          t.payments[p].status == Created && t'.payments[p] == t.payments[p].(status := Failed))
    && (forall p :: p in t'.payments && p !in t.payments ==>
        t'.payments[p].settlement.None? && t'.payments[p].status == Created)
  }

  lemma InsertIsHarmless(s: State, p: PaymentId, req: Request, key: Key, token: Token)
    ensures Harmless(s.tables, InsertAct(s, p, req, key, token).tables)
  {
    hide KeyTaken;
  }

  lemma MarkIsHarmless(s: State, p: PaymentId, approved: bool)
    requires PaymentsOk(s)
    ensures Harmless(s.tables, MarkAct(s, p, approved).tables)
  {
    if p in s.tables.payments { assert PaymentOk(s, p); }
    hide PaymentsOk;
  }

  lemma SchedulesAreHarmless(t: Tables, t': Tables)
    requires t' == t.(merchants := t'.merchants)
    ensures Harmless(t, t')
  {
  }

  /** The steps that neither post nor settle nor refund. */
  lemma OtherSteps(s: State, a: Action)
    requires Inv(s) && !a.Post? && !a.Settle? && !a.IssueRefund?
    ensures Harmless(s.tables, Apply(s, a).tables)
  {
    hide AccountsOk, PairsOk, EntriesOk, PaymentsOk, EventsOk, SettlementsOk, RefundsOk, Harmless;
    hide InsertAct, MarkAct, AdminSettleEffect, GroupEvents, CanPublish, CreatedEvent;
    if a.AdminSettle? { AdminSettleRollsBack(s, a.m, a.s, a.group); }
    match a
    case Insert(p, req, key, token) => InsertIsHarmless(s, p, req, key, token);
    case Mark(p, approved) => MarkIsHarmless(s, p, approved);
    case _ => SchedulesAreHarmless(s.tables, Apply(s, a).tables);
  }

  lemma Step(s: State, a: Action)
    requires Inv(s)
    ensures Inv(Apply(s, a)) && Evolves(s, Apply(s, a))
  {
    match a
    case AdminSettle(m, sid, g) => AdminSettleRollsBack(s, m, sid, g); QuietStep(s, s);
    case Insert(p, req, key, token) => InsertStep(s, p, req, key, token);
    case Mark(p, approved) => MarkStep(s, p, approved);
    case Publish(p) => PublishStep(s, p);
    case Post(i, ids) => PostStep(s, i, ids);
    case Poll(keys) => PollStep(s, keys);
    case Settle(i, ids) => SettleStep(s, i, ids);
    case IssueRefund(m, p, amount, r) => RefundStep(s, m, p, amount, r);
    case Wait(_) => QuietStep(s, Apply(s, a));
    case ChangeSchedule(_, _) => QuietStep(s, Apply(s, a));
    case Notify(_, _, _) => QuietStep(s, Apply(s, a));
  }

  // ----- whole runs -----

  /** The invariant holds after every run. */
  lemma {:induction false} Always(s0: State, acts: seq<Action>)
    requires Initial(s0)
    ensures Inv(Exec(s0, acts))
  {
    if acts != [] {
      Always(s0, acts[..|acts| - 1]);
      Step(Exec(s0, acts[..|acts| - 1]), acts[|acts| - 1]);
    }
  }

  /** Whatever a run has written stays written in every continuation: settlement ids, settlement
      rows, refunds, ledger entries, accounts, amounts. */
  lemma {:induction false} NothingUndone(s0: State, acts: seq<Action>, n: nat)
    requires Initial(s0) && n <= |acts|
    ensures Evolves(Exec(s0, acts[..n]), Exec(s0, acts))
    decreases |acts| - n
  {
    Always(s0, acts[..n]);
    if n < |acts| {
      Step(Exec(s0, acts[..n]), acts[n]);
      assert acts[..n + 1][..n] == acts[..n];
      NothingUndone(s0, acts, n + 1);
      EvolvesTransitive(Exec(s0, acts[..n]), Exec(s0, acts[..n + 1]), Exec(s0, acts));
    } else {
      assert acts[..n] == acts;
    }
  }

  lemma EvolvesTransitive(a: State, b: State, c: State)
    requires Evolves(a, b) && Evolves(b, c)
    ensures Evolves(a, c)
  {
    forall p | p in a.tables.payments
      ensures p in c.tables.payments && RowEvolves(a.tables.payments[p], c.tables.payments[p])
    {
      assert RowEvolves(a.tables.payments[p], b.tables.payments[p]);
      assert RowEvolves(b.tables.payments[p], c.tables.payments[p]);
    }
  }
}
