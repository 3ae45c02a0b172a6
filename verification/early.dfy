/** No payment is settled before its merchant's schedule said it was due. */
module Early {
  import opened Sums
  import opened Schema
  import opened Effects
  import opened Pipeline
  import opened Invariant
  import opened Guarantees

  /** Step k of the run is a poll that found payment p due and published its group. */
  ghost predicate DueAtPoll(s0: State, acts: seq<Action>, k: nat, p: PaymentId) {
    && k < |acts| && acts[k].Poll?
    && var s := Exec(s0, acts[..k]);
    && CanPublish(s.tables, s.now, acts[k].keys)
    && p in s.tables.payments && Ready(s.tables.merchants, s.now, s.tables.payments[p])
    && KeyOf(s.tables.payments[p]) in acts[k].keys
  }

  lemma DueAtPollExtends(s0: State, acts: seq<Action>, k: nat, p: PaymentId)
    requires acts != [] && DueAtPoll(s0, acts[..|acts| - 1], k, p)
    ensures DueAtPoll(s0, acts, k, p)
  {
    assert acts[..|acts| - 1][..k] == acts[..k];
  }

  /** Every payment in a logged settle event was due when some earlier poll published it. */
  lemma {:induction false} EventWasDue(s0: State, acts: seq<Action>, i: nat, p: PaymentId) returns (k: nat)
    requires Initial(s0) && i < |Exec(s0, acts).log|
    requires Exec(s0, acts).log[i].status == Initiated && p in Exec(s0, acts).log[i].paymentIds
    ensures DueAtPoll(s0, acts, k, p)
  {
    var before, a := acts[..|acts| - 1], acts[|acts| - 1];
    var s := Exec(s0, before);
    if i < |s.log| {
      LogGrows(s0, before, a);
      k := EventWasDue(s0, before, i, p);
      DueAtPollExtends(s0, acts, k, p);
    } else {
      k := |acts| - 1;
      Always(s0, before);
      OnlyPollsPublishSettlements(s, a, i);
      assert Exec(s0, acts).log[i] == GroupEvent(s.tables, s.now, a.keys[i - |s.log|]);
      GroupIsReady(s.tables, s.now, a.keys[i - |s.log|]);
    }
  }

  lemma LogGrows(s0: State, before: seq<Action>, a: Action)
    requires Initial(s0)
    ensures Exec(s0, before).log <= Apply(Exec(s0, before), a).log
  {
    Always(s0, before);
    Step(Exec(s0, before), a);
  }

  lemma OnlyPollsPublishSettlements(s: State, a: Action, i: nat)
    requires Inv(s) && |s.log| <= i < |Apply(s, a).log| && Apply(s, a).log[i].status == Initiated
    ensures a.Poll? && CanPublish(s.tables, s.now, a.keys)
    ensures i - |s.log| < |a.keys| && Apply(s, a).log[i] == GroupEvent(s.tables, s.now, a.keys[i - |s.log|])
  {
    OutcomesAreFresh(s);
  }

  /** The gateway only ever publishes `created` or `failed`. */
  lemma OutcomesAreFresh(s: State)
    requires Inv(s)
    ensures forall p :: p in s.phases && s.phases[p].Marked? ==> s.phases[p].outcome in {Created, Failed}
  {
    forall p | p in s.phases && s.phases[p].Marked?
      ensures s.phases[p].outcome in {Created, Failed}
    {
      assert PaymentOk(s, p);
    }
  }

  /** The step that first gives p a settlement is a committed settle delivery that lists p. */
  lemma OnlySettlesAttach(s: State, a: Action, p: PaymentId)
    requires Inv(s) && p in Apply(s, a).tables.payments
    requires Apply(s, a).tables.payments[p].settlement.Some?
    requires p in s.tables.payments ==> s.tables.payments[p].settlement.None?
    ensures p in s.tables.payments && a.Settle? && a.i < |s.log| && s.log[a.i].status == Initiated
            && p in s.log[a.i].paymentIds
    ensures Apply(s, a).tables.payments[p].updatedAt == s.now
  {
    if a.Settle? && Apply(s, a) != s {
      assert EventOk(s, s.log[a.i]);
      hide Inv;
      SettleLists(s, a.i, a.settleIds, p);
    } else if !a.Settle? {
      OthersAttachNothing(s, a, p);
    }
  }

  lemma SettleLists(s: State, i: nat, ids: SettleIds, p: PaymentId)
    requires i < |s.log| && EventOk(s, s.log[i]) && SettleEffect(s.tables, s.now, s.log[i], ids).Some?
    requires var rows := SettleEffect(s.tables, s.now, s.log[i], ids).value.payments;
             p in rows && rows[p].settlement.Some? && (p in s.tables.payments ==> s.tables.payments[p].settlement.None?)
    ensures p in s.tables.payments && s.log[i].status == Initiated && p in s.log[i].paymentIds
    ensures SettleEffect(s.tables, s.now, s.log[i], ids).value.payments[p].updatedAt == s.now
  {
    hide SettleEffect;
    var _, _ := SettleShape(s.tables, s.now, s.log[i], ids);
  }

  lemma OthersAttachNothing(s: State, a: Action, p: PaymentId)
    requires Inv(s) && !a.Settle? && p in Apply(s, a).tables.payments && Apply(s, a).tables.payments[p].settlement.Some?
    ensures p in s.tables.payments && s.tables.payments[p].settlement.Some?
  {
    if a.Post? || a.IssueRefund? {
      hide Inv, PostEffect, RefundEffect;
      if Apply(s, a) != s {
        match a
        case Post(i, ids) => var _ := PostShape(s.tables, s.now, s.log[i], ids);
        case IssueRefund(m, q, amount, r) => var _ := RefundShape(s.tables, m, q, amount, r);
      }
    } else {
      OtherSteps(s, a);
    }
  }

  /** Never paid early: every settled payment was due at some earlier poll, under the schedule then
      in force. */
  lemma {:induction false} NeverPaidEarly(s0: State, acts: seq<Action>, p: PaymentId) returns (k: nat)
    requires Initial(s0) && p in Exec(s0, acts).tables.payments && Exec(s0, acts).tables.payments[p].settlement.Some?
    ensures DueAtPoll(s0, acts, k, p)
  {
    var before, a := acts[..|acts| - 1], acts[|acts| - 1];
    var s := Exec(s0, before);
    if p in s.tables.payments && s.tables.payments[p].settlement.Some? {
      k := NeverPaidEarly(s0, before, p);
    } else {
      Always(s0, before);
      OnlySettlesAttach(s, a, p);
      k := EventWasDue(s0, before, a.i, p);
    }
    DueAtPollExtends(s0, acts, k, p);
  }

  // ----- how long a payment waits -----

  /** While p is unsettled and not posted again, its time stamp stays. */
  lemma StampKeptByStep(s: State, a: Action, p: PaymentId)
    requires Inv(s) && p in s.tables.payments && p in Apply(s, a).tables.payments
    requires Apply(s, a).tables.payments[p].settlement.None?
    requires Postings(Apply(s, a).tables.ledger, p) == Postings(s.tables.ledger, p)
    ensures Apply(s, a).tables.payments[p].updatedAt == s.tables.payments[p].updatedAt
  {
    if a.Post? || a.Settle? || a.IssueRefund? {
      hide Inv, PostEffect, SettleEffect, RefundEffect, Postings;
      if Apply(s, a) != s {
        match a
        case Settle(i, ids) => SettleStamps(s.tables, s.now, s.log[i], ids, p);
        case Post(i, ids) => PostStamps(s.tables, s.now, s.log[i], ids, p);
        case IssueRefund(m, q, amount, r) => RefundStamps(s.tables, m, q, amount, r, p);
      }
    } else {
      OtherSteps(s, a);
    }
  }

  lemma SettleStamps(t: Tables, now: nat, e: Event, ids: SettleIds, p: PaymentId)
    requires p in t.payments && SettleEffect(t, now, e, ids).Some?
    ensures var t' := SettleEffect(t, now, e, ids).value;
            && p in t'.payments && Postings(t'.ledger, p) == Postings(t.ledger, p)
            && (t'.payments[p].settlement.None? ==> t'.payments[p] == t.payments[p])
  {
    var _, _ := SettleShape(t, now, e, ids);
    var l' := SettleEffect(t, now, e, ids).value.ledger;
    PostingsPair(t.ledger, l'[|t.ledger|], l'[|t.ledger| + 1], p);
  }

  lemma PostStamps(t: Tables, now: nat, e: Event, ids: LedgerIds, p: PaymentId)
    requires PostEffect(t, now, e, ids).Some?
    ensures var t' := PostEffect(t, now, e, ids).value;
            && Postings(t'.ledger, p) == Postings(t.ledger, p) + (if e.paymentId == Some(p) then 1 else 0)
            && (p in t.payments ==> p in t'.payments)
            && (e.paymentId == Some(p) ==> p in t'.payments && t'.payments[p].updatedAt == now)
            && (e.paymentId != Some(p) && p in t.payments ==> t'.payments[p] == t.payments[p])
  {
    var _ := PostShape(t, now, e, ids);
    var l' := PostEffect(t, now, e, ids).value.ledger;
    PostingsPair(t.ledger, l'[|t.ledger|], l'[|t.ledger| + 1], p);
  }

  lemma RefundStamps(t: Tables, m: MerchantId, q: PaymentId, amount: int, r: RefundId, p: PaymentId)
    requires RefundEffect(t, m, q, amount, r).Some?
    ensures var t' := RefundEffect(t, m, q, amount, r).value;
            && Postings(t'.ledger, p) == Postings(t.ledger, p)
            && (p in t.payments ==> p in t'.payments && t'.payments[p].updatedAt == t.payments[p].updatedAt)
  {
    var _ := RefundShape(t, m, q, amount, r);
    var l' := RefundEffect(t, m, q, amount, r).value.ledger;
    PostingsPair(t.ledger, l'[|t.ledger|], l'[|t.ledger| + 1], p);
  }

  lemma {:induction false} StampKept(s0: State, acts: seq<Action>, n: nat, p: PaymentId)
    requires Initial(s0) && n <= |acts| && p in Exec(s0, acts[..n]).tables.payments
    requires p in Exec(s0, acts).tables.payments && Exec(s0, acts).tables.payments[p].settlement.None?
    requires Postings(Exec(s0, acts[..n]).tables.ledger, p) == Postings(Exec(s0, acts).tables.ledger, p)
    ensures Exec(s0, acts).tables.payments[p].updatedAt == Exec(s0, acts[..n]).tables.payments[p].updatedAt
    decreases |acts|
  {
    if n < |acts| {
      var before, a := acts[..|acts| - 1], acts[|acts| - 1];
      assert before[..n] == acts[..n];
      BetweenPostings(s0, before, n, a, p);
      StampKept(s0, before, n, p);
      Always(s0, before);
      StampKeptByStep(Exec(s0, before), a, p);
    } else {
      assert acts[..n] == acts;
    }
  }

  lemma BetweenPostings(s0: State, before: seq<Action>, n: nat, a: Action, p: PaymentId)
    requires Initial(s0) && n <= |before| && p in Exec(s0, before[..n]).tables.payments
    ensures var l0, l1, l2 :=
              Exec(s0, before[..n]).tables.ledger, Exec(s0, before).tables.ledger,
              Apply(Exec(s0, before), a).tables.ledger;
            Postings(l0, p) <= Postings(l1, p) <= Postings(l2, p)
    ensures p in Exec(s0, before).tables.payments && p in Apply(Exec(s0, before), a).tables.payments
    ensures Apply(Exec(s0, before), a).tables.payments[p].settlement.None? ==>
            Exec(s0, before).tables.payments[p].settlement.None?
  {
    RowLater(s0, before, n, p);
    LedgerLater(s0, before, n);
    Always(s0, before);
    Step(Exec(s0, before), a);
    PostingsPrefix(Exec(s0, before[..n]).tables.ledger, Exec(s0, before).tables.ledger, p);
    PostingsPrefix(Exec(s0, before).tables.ledger, Apply(Exec(s0, before), a).tables.ledger, p);
  }

  lemma LedgerLater(s0: State, acts: seq<Action>, n: nat)
    requires Initial(s0) && n <= |acts|
    ensures Exec(s0, acts[..n]).tables.ledger <= Exec(s0, acts).tables.ledger
    ensures Exec(s0, acts[..n]).now <= Exec(s0, acts).now
  {
    NothingUndone(s0, acts, n);
  }

  /** Step j posts payment p for the first time. */
  ghost predicate FirstPosting(s0: State, acts: seq<Action>, j: nat, p: PaymentId) {
    && j < |acts|
    && Postings(Exec(s0, acts[..j]).tables.ledger, p) == 0
    && Postings(Exec(s0, acts[..j + 1]).tables.ledger, p) == 1
  }

  lemma PostingStamps(s0: State, acts: seq<Action>, j: nat, p: PaymentId)
    requires Initial(s0) && FirstPosting(s0, acts, j, p)
    ensures p in Exec(s0, acts[..j + 1]).tables.payments
    ensures Exec(s0, acts[..j + 1]).tables.payments[p].updatedAt == Exec(s0, acts[..j]).now
  {
    assert acts[..j + 1][..j] == acts[..j];
    var s, a := Exec(s0, acts[..j]), acts[j];
    Always(s0, acts[..j]);
    if a.AdminSettle? { AdminSettleRollsBack(s, a.m, a.s, a.group); }
    hide Inv, Initial;
    match a
    case Settle(i, ids) => if Apply(s, a) != s { SettlePostsNothing(s.tables, s.now, s.log[i], ids, p); }
    case Post(i, ids) => if Apply(s, a) != s { PostStamps(s.tables, s.now, s.log[i], ids, p); }
    case IssueRefund(m, q, amount, r) => if Apply(s, a) != s { RefundStamps(s.tables, m, q, amount, r, p); }
    case _ =>
  }

  lemma SettlePostsNothing(t: Tables, now: nat, e: Event, ids: SettleIds, p: PaymentId)
    requires SettleEffect(t, now, e, ids).Some?
    ensures Postings(SettleEffect(t, now, e, ids).value.ledger, p) == Postings(t.ledger, p)
  {
    var _, _ := SettleShape(t, now, e, ids);
    var l' := SettleEffect(t, now, e, ids).value.ledger;
    PostingsPair(t.ledger, l'[|t.ledger|], l'[|t.ledger| + 1], p);
  }

  /** A payment posted once, at step j, and settled by the last step waited at least the delay of the
      schedule in force at the poll that picked it up. */
  lemma SettledAfterDelay(s0: State, acts: seq<Action>, j: nat, p: PaymentId) returns (k: nat)
    requires Initial(s0) && acts != []
    requires var before := Exec(s0, acts[..|acts| - 1]).tables.payments; p in before && before[p].settlement.None?
    requires var after := Exec(s0, acts).tables.payments; p in after && after[p].settlement.Some?
    requires FirstPosting(s0, acts, j, p) && Postings(Exec(s0, acts).tables.ledger, p) == 1
    ensures j < k < |acts| && DueAtPoll(s0, acts, k, p)
    ensures var polled := Exec(s0, acts[..k]).tables;
            WaitedEnough(polled.merchants[polled.payments[p].merchant], Exec(s0, acts).now - Exec(s0, acts[..j]).now)
  {
    k := PickedUp(s0, acts, p);
    PolledAfterPosting(s0, acts, j, k, p);
    PolledStamp(s0, acts, j, k, p);
    LedgerLater(s0, acts, k);
  }

  lemma PickedUp(s0: State, acts: seq<Action>, p: PaymentId) returns (k: nat)
    requires Initial(s0) && acts != []
    requires var before := Exec(s0, acts[..|acts| - 1]).tables.payments; p in before && before[p].settlement.None?
    requires var after := Exec(s0, acts).tables.payments; p in after && after[p].settlement.Some?
    ensures k < |acts| && DueAtPoll(s0, acts, k, p)
  {
    var n := |acts| - 1;
    Always(s0, acts[..n]);
    OnlySettlesAttach(Exec(s0, acts[..n]), acts[n], p);
    k := EventWasDue(s0, acts[..n], acts[n].i, p);
    DueAtPollExtends(s0, acts, k, p);
  }

  lemma PolledStamp(s0: State, acts: seq<Action>, j: nat, k: nat, p: PaymentId)
    requires Initial(s0) && FirstPosting(s0, acts, j, p) && j < k && DueAtPoll(s0, acts, k, p)
    requires Postings(Exec(s0, acts).tables.ledger, p) == 1
    ensures Exec(s0, acts[..k]).tables.payments[p].updatedAt == Exec(s0, acts[..j]).now
  {
    PostedOnceBetween(s0, acts, j, k, p);
    assert acts[..k][..j] == acts[..j] && acts[..k][..j + 1] == acts[..j + 1];
    StampOfPosting(s0, acts[..k], j, p);
  }

  lemma StampOfPosting(s0: State, acts: seq<Action>, j: nat, p: PaymentId)
    requires Initial(s0) && FirstPosting(s0, acts, j, p) && Postings(Exec(s0, acts).tables.ledger, p) == 1
    requires p in Exec(s0, acts).tables.payments && Exec(s0, acts).tables.payments[p].settlement.None?
    ensures Exec(s0, acts).tables.payments[p].updatedAt == Exec(s0, acts[..j]).now
  {
    PostingStamps(s0, acts, j, p);
    StampKept(s0, acts, j + 1, p);
  }

  /** The due rule over runs: a payment posted once, at step j, and not settled yet is found by a poll exactly when the
      time since that posting is enough for its merchant's schedule now. */
  lemma DueInSeconds(s0: State, acts: seq<Action>, j: nat, p: PaymentId)
    requires Initial(s0) && FirstPosting(s0, acts, j, p) && Postings(Exec(s0, acts).tables.ledger, p) == 1
    requires p in Exec(s0, acts).tables.payments && Exec(s0, acts).tables.payments[p].settlement.None?
    ensures var t := Exec(s0, acts).tables;
            var row := t.payments[p];
      && row.merchant in t.merchants
      && (p in Group(t, Exec(s0, acts).now, KeyOf(row))
          <==> WaitedEnough(t.merchants[row.merchant], Exec(s0, acts).now - Exec(s0, acts[..j]).now))
  {
    hide Exec, Initial, Inv, FirstPosting, Postings, Group, WaitedEnough;
    var s := Exec(s0, acts);
    StampOfPosting(s0, acts, j, p);
    Always(s0, acts);
    InitiatedUntilSettled(s, p);
    GroupIsReady(s.tables, s.now, KeyOf(s.tables.payments[p]));
  }

  lemma InitiatedUntilSettled(s: State, p: PaymentId)
    requires Inv(s) && p in s.tables.payments
    requires Postings(s.tables.ledger, p) == 1 && s.tables.payments[p].settlement.None?
    ensures s.tables.payments[p].status == Initiated && s.tables.payments[p].merchant in s.tables.merchants
  {
    assert PaymentOk(s, p);
  }

  lemma PolledAfterPosting(s0: State, acts: seq<Action>, j: nat, k: nat, p: PaymentId)
    requires Initial(s0) && FirstPosting(s0, acts, j, p) && DueAtPoll(s0, acts, k, p)
    ensures j < k
  {
    RowInRun(s0, acts[..k], p);
    if k <= j {
      assert acts[..j][..k] == acts[..k];
      LedgerLater(s0, acts[..j], k);
      PostingsPrefix(Exec(s0, acts[..k]).tables.ledger, Exec(s0, acts[..j]).tables.ledger, p);
    }
  }

  lemma PostedOnceBetween(s0: State, acts: seq<Action>, j: nat, k: nat, p: PaymentId)
    requires Initial(s0) && FirstPosting(s0, acts, j, p) && j < k <= |acts|
             && Postings(Exec(s0, acts).tables.ledger, p) == 1
    ensures Postings(Exec(s0, acts[..k]).tables.ledger, p) == 1
  {
    assert acts[..k][..j + 1] == acts[..j + 1];
    LedgerLater(s0, acts[..k], j + 1);
    LedgerLater(s0, acts, k);
    PostingsPrefix(Exec(s0, acts[..j + 1]).tables.ledger, Exec(s0, acts[..k]).tables.ledger, p);
    PostingsPrefix(Exec(s0, acts[..k]).tables.ledger, Exec(s0, acts).tables.ledger, p);
  }
}
