/** What every run of the pipeline guarantees about its tables. */
module Guarantees {
  import opened Sums
  import opened Schema
  import opened Effects
  import opened Pipeline
  import opened Invariant

  // ----- double entry -----

  /** Credits minus debits of all entries in one currency. */
  ghost function NetIn(ledger: seq<Entry>, c: Currency): int {
    if ledger == [] then 0
    else
      var e := ledger[|ledger| - 1];
      NetIn(ledger[..|ledger| - 1], c) + (if e.currency == c then Signed(e) else 0)
  }

  lemma {:induction false} PairsSumToZero(ledger: seq<Entry>, c: Currency)
    requires PairsOk(ledger)
    ensures NetIn(ledger, c) == 0
  {
    if ledger != [] {
      var n := |ledger| - 2;
      var rest := ledger[..n];
      forall i: nat | i < n && i % 2 == 0 ensures PairAt(rest, i) { assert PairAt(ledger, i); }
      PairsSumToZero(rest, c);
      assert PairAt(ledger, n);
      assert ledger[..n + 1][..n] == rest;
    }
  }

  /** The signed entries of every currency sum to zero after every run. */
  lemma BooksBalance(s0: State, acts: seq<Action>, c: Currency)
    requires Initial(s0)
    ensures NetIn(Exec(s0, acts).tables.ledger, c) == 0
  {
    Always(s0, acts);
    PairsSumToZero(Exec(s0, acts).tables.ledger, c);
  }

  /** Every transaction group is one debit and one credit of equal amount and currency. */
  lemma GroupIsOnePair(s0: State, acts: seq<Action>, i: nat) returns (j: nat)
    requires Initial(s0) && i < |Exec(s0, acts).tables.ledger|
    ensures var l := Exec(s0, acts).tables.ledger;
            && j < |l| && j != i
            && (forall k :: 0 <= k < |l| && l[k].group == l[i].group <==> k == i || k == j)
            && {l[i].kind, l[j].kind} == {Debit, Credit}
            && l[i].amount == l[j].amount && l[i].amount > 0 && l[i].currency == l[j].currency
  {
    Always(s0, acts);
    var t := Exec(s0, acts).tables;
    assert EntryOk(t, t.ledger[i]);
    j := if i % 2 == 0 then i + 1 else i - 1;
    assert PairAt(t.ledger, if i % 2 == 0 then i else j);
  }

  // ----- events in flight -----

  /** Every logged event agrees with the tables at every moment of every run, however long it has been in
      flight: a `created` event with its row, a settle event with all of its rows. */
  lemma EventsAgree(s0: State, acts: seq<Action>, i: nat)
    requires Initial(s0) && i < |Exec(s0, acts).log|
    ensures var s := Exec(s0, acts);
            var e := s.log[i];
            var rows := s.tables.payments;
            && (e.status == Created ==>
                  && e.paymentId.Some? && e.paymentId.value in rows
                  && rows[e.paymentId.value].merchant == e.merchant && rows[e.paymentId.value].amount == e.amount
                  && rows[e.paymentId.value].currency == e.currency && rows[e.paymentId.value].status != Failed)
            && (e.status == Initiated ==>
                  && e.paymentIds != {} && e.amount == Total(rows, e.paymentIds) && e.amount > 0
                  && forall p :: p in e.paymentIds ==>
                       && p in rows && rows[p].merchant == e.merchant && rows[p].currency == e.currency
                       && (rows[p].settlement.Some? || rows[p].status == Initiated))
  {
    Always(s0, acts);
    EventAgrees(Exec(s0, acts), i);
  }

  lemma EventAgrees(s: State, i: nat)
    requires PaymentsOk(s) && EventsOk(s) && i < |s.log|
    ensures var e, rows := s.log[i], s.tables.payments;
            && (e.status == Created ==>
                  && e.paymentId.Some? && e.paymentId.value in rows
                  && rows[e.paymentId.value].merchant == e.merchant && rows[e.paymentId.value].amount == e.amount
                  && rows[e.paymentId.value].currency == e.currency && rows[e.paymentId.value].status != Failed)
            && (e.status == Initiated ==>
                  && e.paymentIds != {} && e.amount == Total(rows, e.paymentIds) && e.amount > 0
                  && forall p :: p in e.paymentIds ==>
                       && p in rows && rows[p].merchant == e.merchant && rows[p].currency == e.currency
                       && (rows[p].settlement.Some? || rows[p].status == Initiated))
  {
    var e := s.log[i];
    assert EventOk(s, e);
    if e.status == Created {
      assert PaymentOk(s, e.paymentId.value);
    }
    if e.status == Initiated {
      hide PaymentOk;
      TotalNotNegative(s, s.tables.payments, e.paymentIds);
    }
  }

  // ----- settlements -----

  /** Every settlement has payments attached, all of its merchant and currency, and is never worth
      less than they are. */
  lemma SettlementCovers(s0: State, acts: seq<Action>, sid: SettlementId)
    requires Initial(s0) && sid in Exec(s0, acts).tables.settlements
    ensures var t := Exec(s0, acts).tables;
            && Attached(t.payments, sid) != {}
            && (forall p :: p in Attached(t.payments, sid) ==>
                  t.payments[p].merchant == t.settlements[sid].merchant
                    && t.payments[p].currency == t.settlements[sid].currency)
            && Total(t.payments, Attached(t.payments, sid)) <= t.settlements[sid].amount
  {
    Always(s0, acts);
    var s := Exec(s0, acts);
    assert SettlementOk(s.tables, sid);
    forall p | p in Attached(s.tables.payments, sid)
      ensures s.tables.payments[p].merchant == s.tables.settlements[sid].merchant
      ensures s.tables.payments[p].currency == s.tables.settlements[sid].currency
    {
      assert PaymentOk(s, p);
    }
  }

  /** The payments of an event that an earlier settlement already took. */
  function TakenBefore(t: Tables, e: Event): set<PaymentId> {
    set p | p in e.paymentIds && p in t.payments && t.payments[p].settlement.Some?
  }

  /** A committed settlement exceeds its attached payments by exactly what was taken before, so it
      pays the right amount if and only if nothing was. */
  lemma SettlementExcess(s0: State, acts: seq<Action>, i: nat, ids: SettleIds)
    requires Initial(s0)
    requires var s := Exec(s0, acts); i < |s.log| && SettleEffect(s.tables, s.now, s.log[i], ids).Some?
    ensures var s := Exec(s0, acts);
            var t' := SettleEffect(s.tables, s.now, s.log[i], ids).value;
            var attached := Total(t'.payments, Attached(t'.payments, ids.settlement));
            var taken := TakenBefore(s.tables, s.log[i]);
            && ids.settlement in t'.settlements
            && t'.settlements[ids.settlement].amount == attached + Total(s.tables.payments, taken)
            && t'.settlements[ids.settlement].amount >= attached
            && (t'.settlements[ids.settlement].amount == attached <==> taken == {})
  {
    Always(s0, acts);
    hide Inv, SettleEffect;
    ExcessAt(Exec(s0, acts), i, ids);
  }

  lemma ExcessAt(s: State, i: nat, ids: SettleIds)
    requires Inv(s) && i < |s.log| && SettleEffect(s.tables, s.now, s.log[i], ids).Some?
    ensures var t' := SettleEffect(s.tables, s.now, s.log[i], ids).value;
            var attached := Total(t'.payments, Attached(t'.payments, ids.settlement));
            var taken := TakenBefore(s.tables, s.log[i]);
            && ids.settlement in t'.settlements
            && t'.settlements[ids.settlement].amount == attached + Total(s.tables.payments, taken)
            && t'.settlements[ids.settlement].amount >= attached
            && (t'.settlements[ids.settlement].amount == attached <==> taken == {})
  {
    hide AccountsOk, PairsOk, EntriesOk, PaymentOk, EventsOk, RefundsOk, SettleEffect;
    var e := s.log[i];
    var t' := SettleEffect(s.tables, s.now, e, ids).value;
    EventHolds(s, i);
    SettleAttaches(s, i, ids);
    var _, _ := SettleShape(s.tables, s.now, e, ids);
    var taken := TakenBefore(s.tables, e);
    assert e.paymentIds - Hits(s.tables.payments, e.paymentIds) == taken;
    TotalFrame(s.tables.payments, t'.payments, taken);
    TotalNotNegative(s, s.tables.payments, taken);
  }

  lemma EventHolds(s: State, i: nat)
    requires EventsOk(s) && i < |s.log|
    ensures EventOk(s, s.log[i])
  {
  }

  // ----- written once -----

  lemma RowInRun(s0: State, acts: seq<Action>, p: PaymentId)
    requires Initial(s0) && p in Exec(s0, acts).tables.payments
    ensures PaymentOk(Exec(s0, acts), p)
  {
    Always(s0, acts);
  }

  lemma RowLater(s0: State, acts: seq<Action>, n: nat, p: PaymentId)
    requires Initial(s0) && n <= |acts| && p in Exec(s0, acts[..n]).tables.payments
    ensures p in Exec(s0, acts).tables.payments
    ensures RowEvolves(Exec(s0, acts[..n]).tables.payments[p], Exec(s0, acts).tables.payments[p])
  {
    NothingUndone(s0, acts, n);
  }

  /** A settlement id, once written, is never changed. */
  lemma SettledForGood(s0: State, acts: seq<Action>, n: nat, p: PaymentId)
    requires Initial(s0) && n <= |acts|
    requires p in Exec(s0, acts[..n]).tables.payments && Exec(s0, acts[..n]).tables.payments[p].settlement.Some?
    ensures p in Exec(s0, acts).tables.payments
    ensures Exec(s0, acts).tables.payments[p].settlement == Exec(s0, acts[..n]).tables.payments[p].settlement
  {
    RowLater(s0, acts, n, p);
  }

  /** Step n of the run takes payment p to `processed`. */
  ghost predicate EntersProcessed(s0: State, acts: seq<Action>, n: nat, p: PaymentId)
    requires n < |acts|
  {
    var before, after := Exec(s0, acts[..n]).tables.payments, Exec(s0, acts[..n + 1]).tables.payments;
    && p in before && p in after && before[p].status != Processed && after[p].status == Processed
  }

  /** No payment is settled twice: at most one step of a run takes it to `processed`. */
  lemma ProcessedAtMostOnce(s0: State, acts: seq<Action>, i: nat, j: nat, p: PaymentId)
    requires Initial(s0) && i < |acts| && j < |acts|
    requires EntersProcessed(s0, acts, i, p) && EntersProcessed(s0, acts, j, p)
    ensures i == j
  {
    if i < j {
      NotProcessedAgain(s0, acts, i, j, p);
    } else if j < i {
      NotProcessedAgain(s0, acts, j, i, p);
    }
  }

  lemma NotProcessedAgain(s0: State, acts: seq<Action>, i: nat, j: nat, p: PaymentId)
    requires Initial(s0) && i < j < |acts|
    requires EntersProcessed(s0, acts, i, p)
    ensures !EntersProcessed(s0, acts, j, p)
  {
    hide Initial;
    RowInRun(s0, acts[..i + 1], p);
    assert acts[..j][..i + 1] == acts[..i + 1] && acts[..j + 1][..j] == acts[..j];
    RowLater(s0, acts[..j], i + 1, p);
    RowLater(s0, acts[..j + 1], j, p);
  }

  /** A payment has at most one refund, of its full amount, and only after it was settled. */
  lemma RefundedAtMostOnce(s0: State, acts: seq<Action>, q: RefundId, r: RefundId)
    requires Initial(s0)
    requires var t := Exec(s0, acts).tables;
      && q in t.refunds && r in t.refunds
      && t.refunds[q].payment == t.refunds[r].payment
    ensures var t := Exec(s0, acts).tables;
            var p := t.refunds[q].payment;
            && q == r && p in t.payments
            && t.refunds[q].amount == t.payments[p].amount && t.refunds[q].merchant == t.payments[p].merchant
            && t.payments[p].settlement.Some?
  {
    Always(s0, acts);
  }

  /** The refund debits the account the capture credited if and only if the payment was in `usd`. */
  lemma RefundMirrorsCapture(s0: State, acts: seq<Action>, p: PaymentId, amount: int, r: RefundId, i: nat)
    requires Initial(s0)
    requires var t := Exec(s0, acts).tables;
             && i < |t.ledger| && IsCapture(t.ledger[i], p) && p in t.payments
             && RefundEffect(t, t.payments[p].merchant, p, amount, r).Some?
    ensures var t := Exec(s0, acts).tables;
            var t' := RefundEffect(t, t.payments[p].merchant, p, amount, r).value;
            && |t'.ledger| == |t.ledger| + 2
            && t'.ledger[|t.ledger|].kind == Debit && t'.ledger[|t.ledger|].amount == t.ledger[i].amount
            && t'.ledger[|t.ledger| + 1].kind == Credit && t'.ledger[|t.ledger| + 1].amount == t.ledger[i].amount
            && t'.ledger[|t.ledger| + 1].account == System
            && (t'.ledger[|t.ledger|].account == t.ledger[i].account <==> t.payments[p].currency == LowerUsd)
  {
    Always(s0, acts);
    var t := Exec(s0, acts).tables;
    hide PairsOk, PaymentsOk, EventsOk, SettlementsOk, RefundsOk;
    assert EntryOk(t, t.ledger[i]);
    var payable := RefundShape(t, t.payments[p].merchant, p, amount, r);
  }

  // ----- the life of a payment -----

  function Rank(st: Status): nat {
    match st
    case Created | Failed | Settled => 0
    case Initiated => 1
    case Processed => 2
    case Refunded => 3
  }

  /** What the ledger consumer asks of a delivery of event i: the status filter, an unused transaction group,
      and an unused account name if the merchant has no payable account in that currency yet. */
  ghost predicate Postable(s: State, i: nat, ids: LedgerIds) {
    && i < |s.log| && s.log[i].status == Created && UnusedGroup(s.tables.ledger, Txg(ids.group))
    && (FindAccount(s.tables.accounts, s.log[i].merchant, MerchantPayable, s.log[i].currency).Some?
        || Generated(ids.payable) !in s.tables.accounts)
  }

  /** Nothing else is asked: in every reachable state such a delivery commits, first time or not, and no other
      delivery to the ledger consumer changes anything. */
  lemma PostCommitsWheneverDelivered(s: State, i: nat, ids: LedgerIds)
    requires Inv(s)
    ensures Apply(s, Post(i, ids)) != s <==> Postable(s, i, ids)
    ensures Postable(s, i, ids) ==> PostEffect(s.tables, s.now, s.log[i], ids).Some?
  {
    if i < |s.log| && s.log[i].status == Created {
      EffectWheneverNamed(s, i, ids);
      if PostEffect(s.tables, s.now, s.log[i], ids).Some? {
        hide Inv;
        var _ := PostShape(s.tables, s.now, s.log[i], ids);
      }
    }
  }

  lemma EffectWheneverNamed(s: State, i: nat, ids: LedgerIds)
    requires Inv(s) && i < |s.log| && s.log[i].status == Created
    ensures var e := s.log[i];
            PostEffect(s.tables, s.now, e, ids).Some?
            <==> FindAccount(s.tables.accounts, e.merchant, MerchantPayable, e.currency).Some?
                 || Generated(ids.payable) !in s.tables.accounts
  {
    var e := s.log[i];
    assert EventOk(s, e);
    var p := e.paymentId.value;
    assert PaymentOk(s, p);
    assert p in s.tables.payments && e.merchant in s.tables.merchants && e.amount > 0;
    assert KeyOf(s.tables.payments[p]) == GroupKey(e.merchant, e.currency);
    hide PaymentsOk, PaymentOk, PairsOk, EntriesOk, EventsOk, SettlementsOk, RefundsOk;
    var t0 := MarkInitiated(s.tables, s.now, p);
    if FindAccount(t0.accounts, e.merchant, MerchantPayable, e.currency).Some?
      || Generated(ids.payable) !in t0.accounts {
      var t1 := EnsureAccount(t0, e.merchant, MerchantPayable, e.currency, ids.payable);
      TakenIsFound(t0.accounts, e.merchant, MerchantPayable, e.currency);
      EnsureAccountShape(t0, e.merchant, MerchantPayable, e.currency, ids.payable);
      EnsureSystemShape(t1.value, e.currency);
    }
  }

  lemma TakenIsFound(accounts: map<AccountId, Account>, m: MerchantId, kind: AccountType, c: Currency)
    ensures AccountTaken(accounts, Account(Some(m), kind, c)) <==> FindAccount(accounts, m, kind, c).Some?
  {
    if AccountTaken(accounts, Account(Some(m), kind, c)) {
      var a :| a in accounts && accounts[a] == Account(Some(m), kind, c);
      assert IsAccount(accounts, a, m, kind, c);
    }
  }

  /** Exactly one kind of step moves a payment back: a delivery to the ledger of its `created` event after it
      was processed or refunded. */
  lemma MovesBackOnlyByRepost(s: State, a: Action, p: PaymentId)
    requires Inv(s) && p in s.tables.payments
    ensures var t' := Apply(s, a).tables;
            && p in t'.payments
            && (Rank(t'.payments[p].status) < Rank(s.tables.payments[p].status)
                <==> a.Post? && Postable(s, a.i, a.postIds) && s.log[a.i].paymentId == Some(p)
                     && s.tables.payments[p].status in {Processed, Refunded})
            && (Rank(t'.payments[p].status) < Rank(s.tables.payments[p].status)
                ==> Postings(t'.ledger, p) == Postings(s.tables.ledger, p) + 1 && Postings(s.tables.ledger, p) >= 1)
  {
    assert PaymentOk(s, p);
    if a.Post? || a.Settle? || a.IssueRefund? {
      if a.Post? { PostCommitsWheneverDelivered(s, a.i, a.postIds); }
      hide Inv, Postable;
      if Apply(s, a) != s {
        match a
        case Post(i, ids) => PostRanks(s, i, ids, p);
        case Settle(i, ids) => SettleRanks(s, i, ids, p);
        case IssueRefund(m, q, amount, r) => RefundRanks(s, m, q, amount, r, p);
      }
    } else {
      OtherSteps(s, a);
    }
  }

  lemma PostRanks(s: State, i: nat, ids: LedgerIds, p: PaymentId)
    requires p in s.tables.payments && PaymentOk(s, p) && i < |s.log|
             && PostEffect(s.tables, s.now, s.log[i], ids).Some?
    ensures var t' := PostEffect(s.tables, s.now, s.log[i], ids).value;
            && p in t'.payments && t' != s.tables
            && (Rank(t'.payments[p].status) < Rank(s.tables.payments[p].status)
                <==> s.log[i].paymentId == Some(p) && s.tables.payments[p].status in {Processed, Refunded})
            && (s.log[i].paymentId == Some(p) ==> Postings(t'.ledger, p) == Postings(s.tables.ledger, p) + 1)
  {
    var _ := PostShape(s.tables, s.now, s.log[i], ids);
    hide PostEffect;
    var l, l' := s.tables.ledger, PostEffect(s.tables, s.now, s.log[i], ids).value.ledger;
    PostingsPair(l, l'[|l|], l'[|l| + 1], p);
  }

  lemma RefundRanks(s: State, m: MerchantId, q: PaymentId, amount: int, r: RefundId, p: PaymentId)
    requires p in s.tables.payments && RefundEffect(s.tables, m, q, amount, r).Some?
    ensures var t' := RefundEffect(s.tables, m, q, amount, r).value;
            p in t'.payments && Rank(s.tables.payments[p].status) <= Rank(t'.payments[p].status)
  {
    var _ := RefundShape(s.tables, m, q, amount, r);
  }

  lemma SettleRanks(s: State, i: nat, ids: SettleIds, p: PaymentId)
    requires p in s.tables.payments && PaymentOk(s, p) && i < |s.log|
             && SettleEffect(s.tables, s.now, s.log[i], ids).Some?
    ensures var t' := SettleEffect(s.tables, s.now, s.log[i], ids).value;
            p in t'.payments && Rank(s.tables.payments[p].status) <= Rank(t'.payments[p].status)
  {
    var _, _ := SettleShape(s.tables, s.now, s.log[i], ids);
  }

  lemma {:induction false} PostingsPrefix(a: seq<Entry>, b: seq<Entry>, p: PaymentId)
    requires a <= b
    ensures Postings(a, p) <= Postings(b, p)
    decreases |b|
  {
    if |a| < |b| {
      PostingsPrefix(a, b[..|b| - 1], p);
    } else {
      assert a == b;
    }
  }

  /** A payment posted at most once in a run only ever moves forward through created, initiated,
      processed, refunded; and it has its one capture exactly from initiated on. */
  lemma {:induction false} ForwardWhenPostedOnce(s0: State, acts: seq<Action>, n: nat, p: PaymentId)
    requires Initial(s0) && n <= |acts|
    requires p in Exec(s0, acts[..n]).tables.payments && Postings(Exec(s0, acts).tables.ledger, p) <= 1
    ensures p in Exec(s0, acts).tables.payments
    ensures Rank(Exec(s0, acts[..n]).tables.payments[p].status) <= Rank(Exec(s0, acts).tables.payments[p].status)
    ensures Postings(Exec(s0, acts).tables.ledger, p) == 1 <==>
            Exec(s0, acts).tables.payments[p].status in {Initiated, Processed, Refunded}
    decreases |acts| - n
  {
    Always(s0, acts);
    NothingUndone(s0, acts, n);
    assert PaymentOk(Exec(s0, acts), p);
    if n < |acts| {
      var s, s' := Exec(s0, acts[..n]), Exec(s0, acts[..n + 1]);
      assert acts[..n + 1][..n] == acts[..n];
      Always(s0, acts[..n]);
      MovesBackOnlyByRepost(s, acts[n], p);
      NothingUndone(s0, acts, n + 1);
      PostingsPrefix(s'.tables.ledger, Exec(s0, acts).tables.ledger, p);
      ForwardWhenPostedOnce(s0, acts, n + 1, p);
    } else {
      assert acts[..n] == acts;
    }
  }

  /** A payment the bank refused stays failed, unsettled and out of the ledger. */
  lemma FailedForGood(s0: State, acts: seq<Action>, n: nat, p: PaymentId)
    requires Initial(s0) && n <= |acts|
    requires p in Exec(s0, acts[..n]).tables.payments && Exec(s0, acts[..n]).tables.payments[p].status == Failed
    ensures var t := Exec(s0, acts).tables;
            && p in t.payments && t.payments[p].status == Failed && t.payments[p].settlement.None?
            && forall i :: 0 <= i < |t.ledger| ==> t.ledger[i].payment != Some(p)
  {
    RowInRun(s0, acts[..n], p);
    RowLater(s0, acts, n, p);
    RowInRun(s0, acts, p);
    PhaseLater(s0, acts, n, p);
    NeverPosted(s0, acts, p);
  }

  lemma PhaseLater(s0: State, acts: seq<Action>, n: nat, p: PaymentId)
    requires Initial(s0) && n <= |acts|
    requires p in Exec(s0, acts[..n]).phases && Exec(s0, acts[..n]).phases[p].Marked?
    ensures p in Exec(s0, acts).phases && Exec(s0, acts).phases[p] == Exec(s0, acts[..n]).phases[p]
  {
    NothingUndone(s0, acts, n);
  }

  lemma NeverPosted(s0: State, acts: seq<Action>, p: PaymentId)
    requires Initial(s0) && Postings(Exec(s0, acts).tables.ledger, p) == 0
    ensures var l := Exec(s0, acts).tables.ledger; forall i :: 0 <= i < |l| ==> l[i].payment != Some(p)
  {
    hide PaymentsOk, EventsOk, EntriesOk, AccountsOk, SettlementsOk, RefundsOk, PairsOk;
    Always(s0, acts);
    var l := Exec(s0, acts).tables.ledger;
    forall i | 0 <= i < |l| ensures l[i].payment != Some(p) { NoEntryAt(l, p, i); }
  }

  lemma NoEntryAt(l: seq<Entry>, p: PaymentId, i: nat)
    requires PairsOk(l) && Postings(l, p) == 0 && i < |l|
    ensures l[i].payment != Some(p)
  {
    var d := if i % 2 == 0 then i else i - 1;
    assert PairAt(l, d);
    NoCapture(l, p, d + 1);
  }

  lemma {:induction false} NoCapture(ledger: seq<Entry>, p: PaymentId, i: nat)
    requires i < |ledger| && Postings(ledger, p) == 0
    ensures !IsCapture(ledger[i], p)
    decreases |ledger|
  {
    if i < |ledger| - 1 {
      NoCapture(ledger[..|ledger| - 1], p, i);
    }
  }

  // ----- accounts -----

  /** A lookup by merchant, type and currency finds at most one account, and a later lookup in the
      same run finds the same one. */
  lemma AccountFoundAgain(s0: State, acts: seq<Action>, n: nat, m: MerchantId, kind: AccountType, c: Currency)
    requires Initial(s0) && n <= |acts|
    requires FindAccount(Exec(s0, acts[..n]).tables.accounts, m, kind, c).Some?
    ensures FindAccount(Exec(s0, acts).tables.accounts, m, kind, c)
            == FindAccount(Exec(s0, acts[..n]).tables.accounts, m, kind, c)
    ensures var accounts := Exec(s0, acts).tables.accounts;
            forall a, b :: IsAccount(accounts, a, m, kind, c) && IsAccount(accounts, b, m, kind, c) ==> a == b
  {
    NothingUndone(s0, acts, n);
    Always(s0, acts);
    var a := FindAccount(Exec(s0, acts[..n]).tables.accounts, m, kind, c).value;
    assert IsAccount(Exec(s0, acts).tables.accounts, a, m, kind, c);
  }

  /** Every entry on a merchant's account is in that account's currency. */
  lemma EntryInAccountCurrency(s0: State, acts: seq<Action>, i: nat)
    requires Initial(s0) && i < |Exec(s0, acts).tables.ledger|
    ensures var t := Exec(s0, acts).tables;
            && t.ledger[i].account in t.accounts
            && (t.accounts[t.ledger[i].account].kind in {MerchantPayable, MerchantSettlement}
                ==> t.accounts[t.ledger[i].account].currency == t.ledger[i].currency)
  {
    Always(s0, acts);
    assert EntryOk(Exec(s0, acts).tables, Exec(s0, acts).tables.ledger[i]);
  }
}
