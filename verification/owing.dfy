/** When is the payable balance exactly what is still owed? With one posting per payment: exactly when no
    committed settlement of that merchant and currency came upon a payment settled before. */
module Owing {
  import opened Sums
  import opened Schema
  import opened Effects
  import opened Pipeline
  import opened Invariant
  import opened Conservation
  import opened Guarantees
  import opened Delivery
  import opened Early

  // ----- the balance in terms of payments -----

  /** What is still owed on the payments of one merchant and currency: posted and not settled. */
  function Owed(t: Tables, k: GroupKey): set<PaymentId> {
    set p | p in t.payments && KeyOf(t.payments[p]) == k && t.payments[p].status == Initiated
      && t.payments[p].settlement.None?
  }

  function SettledPayments(t: Tables, k: GroupKey): set<PaymentId> {
    set p | p in t.payments && KeyOf(t.payments[p]) == k && t.payments[p].settlement.Some?
  }

  ghost predicate PostedOnce(t: Tables) {
    forall p :: p in t.payments ==> Postings(t.ledger, p) <= 1
  }

  /** Every settlement of merchant and currency k pays exactly what is attached to it. */
  ghost predicate PaidExactly(t: Tables, k: GroupKey) {
    forall sid :: sid in Mine(t, k) ==> Exact(t, sid)
  }

  ghost predicate Exact(t: Tables, sid: SettlementId) {
    sid in t.settlements && t.settlements[sid].amount == Total(t.payments, Attached(t.payments, sid))
  }

  lemma CapturedOnce(s: State, k: GroupKey)
    requires Inv(s) && PostedOnce(s.tables)
    ensures Captured(s.tables, k)
            == Total(s.tables.payments, Owed(s.tables, k)) + Total(s.tables.payments, SettledPayments(s.tables, k))
  {
    var t := s.tables;
    forall p | p in t.payments
      ensures CapturedOf(t, k, p) == if p in Owed(t, k) || p in SettledPayments(t, k) then AmountOf(t.payments, p)
              else 0
    {
      CapturedOnceOf(s, k, p);
    }
    hide Inv, PostedOnce, CapturedOf;
    var f, g := (p: PaymentId) => CapturedOf(t, k, p), (p: PaymentId) => AmountOf(t.payments, p);
    SumParts(t.payments.Keys, Owed(t, k), SettledPayments(t, k), f, g);
    hide Owed, SettledPayments;
    SumCongruent(t.payments.Keys, f, p => CapturedOf(t, k, p));
    SumCongruent(Owed(t, k), g, p => AmountOf(t.payments, p));
    SumCongruent(SettledPayments(t, k), g, p => AmountOf(t.payments, p));
  }

  lemma CapturedOnceOf(s: State, k: GroupKey, p: PaymentId)
    requires PaymentsOk(s) && PostedOnce(s.tables) && p in s.tables.payments
    ensures CapturedOf(s.tables, k, p)
            == if p in Owed(s.tables, k) || p in SettledPayments(s.tables, k) then AmountOf(s.tables.payments, p) else 0
  {
    assert PaymentOk(s, p);
    assert Postings(s.tables.ledger, p) == 0 || Postings(s.tables.ledger, p) == 1;
  }

  function Mine(t: Tables, k: GroupKey): set<SettlementId> {
    set sid | sid in t.settlements && GroupKey(t.settlements[sid].merchant, t.settlements[sid].currency) == k
  }

  function SettlementOf(t: Tables, p: PaymentId): SettlementId {
    if p in t.payments && t.payments[p].settlement.Some? then t.payments[p].settlement.value else 0
  }

  function PaidWith(t: Tables, k: GroupKey, sid: SettlementId): set<PaymentId> {
    set p | p in SettledPayments(t, k) && SettlementOf(t, p) == sid
  }

  ghost function PaidBy(t: Tables, k: GroupKey, sid: SettlementId): int {
    Total(t.payments, PaidWith(t, k, sid))
  }

  /** What was settled is at least what the settled payments are worth, and the same exactly if every single
      settlement is exact. */
  lemma SettledExactly(s: State, k: GroupKey)
    requires Inv(s)
    ensures SettledTotal(s.tables, k) == Total(s.tables.payments, SettledPayments(s.tables, k)) <==>
            PaidExactly(s.tables, k)
  {
    hide AccountsOk, PairsOk, EntriesOk, PaymentsOk, EventsOk, SettlementsOk, RefundsOk, Exact, PaidBy, SettledOf;
    var t := s.tables;
    OnlyMine(t, k);
    forall sid | sid in Mine(t, k)
      ensures SettledOf(t, k, sid) >= PaidBy(t, k, sid)
              && (SettledOf(t, k, sid) == PaidBy(t, k, sid) <==> Exact(t, sid))
    {
      OneSettlement(s, k, sid);
    }
    hide Mine;
    var f, g := (sid: SettlementId) => SettledOf(t, k, sid), (sid: SettlementId) => PaidBy(t, k, sid);
    SumTight(Mine(t, k), f, g);
    SumCongruent(Mine(t, k), f, sid => SettledOf(t, k, sid));
    SumCongruent(Mine(t, k), g, sid => PaidBy(t, k, sid));
    ByClass(s, k);
  }

  lemma OneSettlement(s: State, k: GroupKey, sid: SettlementId)
    requires PaymentsOk(s) && SettlementsOk(s.tables) && sid in Mine(s.tables, k)
    ensures SettledOf(s.tables, k, sid) >= PaidBy(s.tables, k, sid)
    ensures SettledOf(s.tables, k, sid) == PaidBy(s.tables, k, sid) <==> Exact(s.tables, sid)
  {
    ClassIsAttached(s, k, sid);
    assert PaidWith(s.tables, k, sid) == Attached(s.tables.payments, sid);
    assert SettlementOk(s.tables, sid);
  }

  lemma ByClass(s: State, k: GroupKey)
    requires PaymentsOk(s)
    ensures Sum(Mine(s.tables, k), sid => PaidBy(s.tables, k, sid))
            == Total(s.tables.payments, SettledPayments(s.tables, k))
  {
    SettledInMine(s, k);
    hide PaymentsOk, Mine;
    var t := s.tables;
    var settled := SettledPayments(t, k);
    forall sid ensures Class(settled, p => SettlementOf(t, p), sid) == PaidWith(t, k, sid) { }
    hide PaidWith, SettledPayments, Class;
    SumOfClasses(settled, p => SettlementOf(t, p), Mine(t, k), p => AmountOf(t.payments, p), sid => PaidBy(t, k, sid));
  }

  lemma OnlyMine(t: Tables, k: GroupKey)
    ensures SettledTotal(t, k) == Sum(Mine(t, k), sid => SettledOf(t, k, sid))
  {
    var f := (sid: SettlementId) => SettledOf(t, k, sid);
    var others := t.settlements.Keys - Mine(t, k);
    SumZero(others, f);
    SumUnion(Mine(t, k), others, f);
    assert Mine(t, k) + others == t.settlements.Keys;
    SumCongruent(t.settlements.Keys, f, sid => SettledOf(t, k, sid));
    SumCongruent(Mine(t, k), f, sid => SettledOf(t, k, sid));
  }

  lemma ClassIsAttached(s: State, k: GroupKey, sid: SettlementId)
    requires PaymentsOk(s) && sid in Mine(s.tables, k)
    ensures forall p :: p in Attached(s.tables.payments, sid) <==>
              p in SettledPayments(s.tables, k) && SettlementOf(s.tables, p) == sid
  {
    forall p | p in Attached(s.tables.payments, sid)
      ensures p in SettledPayments(s.tables, k)
    {
      assert PaymentOk(s, p);
    }
  }

  lemma SettledInMine(s: State, k: GroupKey)
    requires PaymentsOk(s)
    ensures forall p :: p in SettledPayments(s.tables, k) ==> SettlementOf(s.tables, p) in Mine(s.tables, k)
  {
    forall p | p in SettledPayments(s.tables, k)
      ensures SettlementOf(s.tables, p) in Mine(s.tables, k)
    {
      assert PaymentOk(s, p);
    }
  }

  // ----- one posting per payment, seen from the run -----

  /** Step a, taken in s, posts payment p. */
  ghost predicate Posts(s: State, a: Action, p: PaymentId) {
    && a.Post? && a.i < |s.log| && UnusedGroup(s.tables.ledger, Txg(a.postIds.group))
    && PostEffect(s.tables, s.now, s.log[a.i], a.postIds).Some? && s.log[a.i].paymentId == Some(p)
  }

  /** How many steps of the run post payment p. */
  ghost function PostsOf(s0: State, acts: seq<Action>, p: PaymentId): nat {
    if acts == [] then 0
    else
      var before, a := acts[..|acts| - 1], acts[|acts| - 1];
      PostsOf(s0, before, p) + if Posts(Exec(s0, before), a, p) then 1 else 0
  }

  lemma PostingsStep(s: State, a: Action, p: PaymentId)
    requires Inv(s)
    ensures Postings(Apply(s, a).tables.ledger, p) == Postings(s.tables.ledger, p) + if Posts(s, a, p) then 1 else 0
  {
    hide Inv, Postings, PostEffect, PostAct, SettleAct, RefundEffect;
    match a
    case Post(i, ids) => PostActPosts(s, i, ids, p);
    case Settle(i, ids) => SettleActPostsNothing(s, i, ids, p);
    case IssueRefund(m, q, amount, r) =>
      if Apply(s, a) != s { RefundPostsNothing(s.tables, m, q, amount, r, p); }
    case _ => OtherSteps(s, a);
  }

  lemma PostActPosts(s: State, i: nat, ids: LedgerIds, p: PaymentId)
    ensures Postings(PostAct(s, i, ids).tables.ledger, p)
            == Postings(s.tables.ledger, p) + if Posts(s, Post(i, ids), p) then 1 else 0
  {
    hide PostEffect, Postings;
    if PostAct(s, i, ids) != s {
      PostPostings(s.tables, s.now, s.log[i], ids, p);
    } else if Posts(s, Post(i, ids), p) {
      PostPostings(s.tables, s.now, s.log[i], ids, p);
    }
  }

  lemma SettleActPostsNothing(s: State, i: nat, ids: SettleIds, p: PaymentId)
    ensures Postings(SettleAct(s, i, ids).tables.ledger, p) == Postings(s.tables.ledger, p)
  {
    hide SettleEffect, Postings;
    if SettleAct(s, i, ids) != s {
      SettlePostsNothing(s.tables, s.now, s.log[i], ids, p);
    }
  }

  lemma PostPostings(t: Tables, now: nat, e: Event, ids: LedgerIds, p: PaymentId)
    requires PostEffect(t, now, e, ids).Some?
    ensures var t' := PostEffect(t, now, e, ids).value;
      t' != t && Postings(t'.ledger, p) == Postings(t.ledger, p) + if e.paymentId == Some(p) then 1 else 0
  {
    var _ := PostShape(t, now, e, ids);
    hide PostEffect;
    var l' := PostEffect(t, now, e, ids).value.ledger;
    PostingsPair(t.ledger, l'[|t.ledger|], l'[|t.ledger| + 1], p);
  }

  lemma RefundPostsNothing(t: Tables, m: MerchantId, q: PaymentId, amount: int, r: RefundId, p: PaymentId)
    requires RefundEffect(t, m, q, amount, r).Some?
    ensures Postings(RefundEffect(t, m, q, amount, r).value.ledger, p) == Postings(t.ledger, p)
  {
    var _ := RefundShape(t, m, q, amount, r);
    hide RefundEffect;
    var l' := RefundEffect(t, m, q, amount, r).value.ledger;
    PostingsPair(t.ledger, l'[|t.ledger|], l'[|t.ledger| + 1], p);
  }

  /** The ledger counts exactly the posting steps of the run. */
  lemma {:induction false} PostingsCountPosts(s0: State, acts: seq<Action>, p: PaymentId)
    requires Initial(s0)
    ensures Postings(Exec(s0, acts).tables.ledger, p) == PostsOf(s0, acts, p)
  {
    if acts != [] {
      hide Inv, Apply, Posts;
      PostingsCountPosts(s0, acts[..|acts| - 1], p);
      Always(s0, acts[..|acts| - 1]);
      PostingsStep(Exec(s0, acts[..|acts| - 1]), acts[|acts| - 1], p);
    }
  }

  // ----- exact settlements, seen from the run -----

  /** Step a, taken in s, commits a settlement of k that lists a payment settled before. */
  ghost predicate Overlaps(s: State, a: Action, k: GroupKey) {
    && a.Settle? && Commits(s, a, a.i) && GroupKey(s.log[a.i].merchant, s.log[a.i].currency) == k
    && TakenBefore(s.tables, s.log[a.i]) != {}
  }

  ghost predicate NoOverlap(s0: State, acts: seq<Action>, k: GroupKey) {
    forall n :: 0 <= n < |acts| ==> !Overlaps(Exec(s0, acts[..n]), acts[n], k)
  }

  /** A payment that gets a settlement gets the one the step inserts. */
  lemma NewSettlementOnly(s: State, a: Action, p: PaymentId)
    requires Inv(s) && p in Apply(s, a).tables.payments && Apply(s, a).tables.payments[p].settlement.Some?
    requires p in s.tables.payments ==> s.tables.payments[p].settlement.None?
    ensures Apply(s, a).tables.payments[p].settlement.value !in s.tables.settlements
  {
    OnlySettlesAttach(s, a, p);
    hide Inv;
    var _, _ := SettleShape(s.tables, s.now, s.log[a.i], a.settleIds);
  }

  lemma AttachedStays(s: State, a: Action, sid: SettlementId, p: PaymentId)
    requires Inv(s) && sid in s.tables.settlements && Evolves(s, Apply(s, a))
    ensures p in Attached(Apply(s, a).tables.payments, sid) <==> p in Attached(s.tables.payments, sid)
    ensures p in Attached(s.tables.payments, sid) ==>
              AmountOf(Apply(s, a).tables.payments, p) == AmountOf(s.tables.payments, p)
  {
    hide Inv, Apply;
    var t, t' := s.tables, Apply(s, a).tables;
    if p in t.payments { assert RowEvolves(t.payments[p], t'.payments[p]); }
    if p in t'.payments && t'.payments[p].settlement.Some? && (p in t.payments ==> t.payments[p].settlement.None?) {
      NewSettlementOnly(s, a, p);
    }
  }

  /** A settlement that is there keeps its payments and its amount. */
  lemma SettlementStays(s: State, a: Action, sid: SettlementId)
    requires Inv(s) && sid in s.tables.settlements
    ensures sid in Apply(s, a).tables.settlements && Apply(s, a).tables.settlements[sid] == s.tables.settlements[sid]
    ensures Exact(Apply(s, a).tables, sid) <==> Exact(s.tables, sid)
  {
    hide Apply, Inv, Exact, Attached, AmountOf;
    var t, t' := s.tables, Apply(s, a).tables;
    Step(s, a);
    forall p
      ensures p in Attached(t'.payments, sid) <==> p in Attached(t.payments, sid)
      ensures p in Attached(t.payments, sid) ==> AmountOf(t'.payments, p) == AmountOf(t.payments, p)
    {
      AttachedStays(s, a, sid, p);
    }
    hide RowEvolves;
    SameAttached(t, t', sid);
  }

  lemma SameAttached(t: Tables, t': Tables, sid: SettlementId)
    requires sid in t.settlements && sid in t'.settlements && t'.settlements[sid] == t.settlements[sid]
    requires forall p :: p in Attached(t'.payments, sid) <==> p in Attached(t.payments, sid)
    requires forall p :: p in Attached(t.payments, sid) ==> AmountOf(t'.payments, p) == AmountOf(t.payments, p)
    ensures Exact(t', sid) <==> Exact(t, sid)
  {
    hide Attached;
    assert Attached(t'.payments, sid) == Attached(t.payments, sid);
    SumCongruent(Attached(t.payments, sid), p => AmountOf(t.payments, p), p => AmountOf(t'.payments, p));
  }

  /** The settlement a step commits is exact if and only if it does not overlap. */
  lemma NewSettlementExact(s: State, a: Action, k: GroupKey)
    requires Inv(s) && a.Settle? && Commits(s, a, a.i) && GroupKey(s.log[a.i].merchant, s.log[a.i].currency) == k
    ensures Exact(Apply(s, a).tables, a.settleIds.settlement) <==> !Overlaps(s, a, k)
  {
    hide Inv, SettleEffect, Total, Attached;
    ExcessAt(s, a.i, a.settleIds);
  }

  lemma ExactStep(s: State, a: Action, k: GroupKey)
    requires Inv(s)
    ensures PaidExactly(Apply(s, a).tables, k) <==> PaidExactly(s.tables, k) && !Overlaps(s, a, k)
  {
    var t, t' := s.tables, Apply(s, a).tables;
    forall sid | sid in Mine(t, k) ensures sid in Mine(t', k) && (Exact(t', sid) <==> Exact(t, sid)) {
      SettlementStays(s, a, sid);
    }
    NewlyMine(s, a, k);
    if a.Settle? && Commits(s, a, a.i) && GroupKey(s.log[a.i].merchant, s.log[a.i].currency) == k {
      NewSettlementExact(s, a, k);
    }
    hide Inv, Apply, Exact, Mine, Commits;
  }

  /** Only a committed settle delivery inserts a settlement. */
  lemma SettlementsAfter(s: State, a: Action)
    requires Inv(s)
    ensures Apply(s, a).tables.settlements
            == if a.Settle? && Commits(s, a, a.i)
               then s.tables.settlements[a.settleIds.settlement :=
                      Settlement(s.log[a.i].merchant, s.log[a.i].amount, s.log[a.i].currency)]
               else s.tables.settlements
    ensures a.Settle? && Commits(s, a, a.i) ==> a.settleIds.settlement !in s.tables.settlements
  {
    if a.Post? || a.Settle? || a.IssueRefund? {
      hide Inv, PostEffect, SettleEffect, RefundEffect;
      if Apply(s, a) != s {
        match a
        case Post(i, ids) => var _ := PostShape(s.tables, s.now, s.log[i], ids);
        case Settle(i, ids) => var _, _ := SettleShape(s.tables, s.now, s.log[i], ids);
        case IssueRefund(m, q, amount, r) => var _ := RefundShape(s.tables, m, q, amount, r);
      } else if a.Settle? && Commits(s, a, a.i) {
        var _, _ := SettleShape(s.tables, s.now, s.log[a.i], a.settleIds);
      }
    } else {
      OtherSteps(s, a);
    }
  }

  /** The settlements of k after a step: those before, and the one it commits. */
  lemma NewlyMine(s: State, a: Action, k: GroupKey)
    requires Inv(s)
    ensures var t, t' := s.tables, Apply(s, a).tables;
      Mine(t', k) == Mine(t, k)
                     + if a.Settle? && Commits(s, a, a.i) && GroupKey(s.log[a.i].merchant, s.log[a.i].currency) == k
                       then {a.settleIds.settlement} else {}
  {
    hide Inv, Apply;
    SettlementsAfter(s, a);
  }

  /** All settlements of k are exact if and only if no step of the run overlapped. */
  lemma {:induction false} ExactIffNoOverlap(s0: State, acts: seq<Action>, k: GroupKey)
    requires Initial(s0)
    ensures PaidExactly(Exec(s0, acts).tables, k) <==> NoOverlap(s0, acts, k)
  {
    if acts != [] {
      hide Inv, Apply, Overlaps, PaidExactly;
      var before := acts[..|acts| - 1];
      ExactIffNoOverlap(s0, before, k);
      Always(s0, before);
      ExactStep(Exec(s0, before), acts[|acts| - 1], k);
      OverlapBefore(s0, acts, k);
    }
  }

  lemma OverlapBefore(s0: State, acts: seq<Action>, k: GroupKey)
    requires acts != []
    ensures var before := acts[..|acts| - 1];
      NoOverlap(s0, acts, k) <==> NoOverlap(s0, before, k) && !Overlaps(Exec(s0, before), acts[|acts| - 1], k)
  {
    hide Overlaps, Exec;
    var before := acts[..|acts| - 1];
    assert forall n :: 0 <= n <= |before| ==> before[..n] == acts[..n];
    assert before == acts[..|before|];
    forall n | 0 <= n < |before|
      ensures Overlaps(Exec(s0, before[..n]), before[n], k) <==> Overlaps(Exec(s0, acts[..n]), acts[n], k)
    {
    }
  }

  /** In a run that posts no payment twice, the payable balance of a merchant and currency is its unsettled
      initiated payments less the refunds if and only if none of its settlements overlapped an earlier one. */
  lemma BalanceIsOwed(s0: State, acts: seq<Action>, m: MerchantId, c: Currency)
    requires Initial(s0) && forall p :: PostsOf(s0, acts, p) <= 1
    ensures var t := Exec(s0, acts).tables;
            var k := GroupKey(m, c);
            PayableBalance(t, m, c) == Total(t.payments, Owed(t, k)) - RefundedTotal(t, k) <==> NoOverlap(s0, acts, k)
  {
    hide PostsOf, NoOverlap, PaidExactly, Exec;
    var s := Exec(s0, acts);
    var k := GroupKey(m, c);
    MoneyConserved(s0, acts, m, c);
    Always(s0, acts);
    forall p ensures Postings(s.tables.ledger, p) <= 1 { PostingsCountPosts(s0, acts, p); }
    CapturedOnce(s, k);
    SettledExactly(s, k);
    ExactIffNoOverlap(s0, acts, k);
  }
}
