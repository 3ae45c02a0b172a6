/** What redelivery does: settle events behave as if delivered once, `created` events do not. */
module Delivery {
  import opened Sums
  import opened Schema
  import opened Effects
  import opened Pipeline
  import opened Invariant
  import opened Conservation
  import opened Guarantees

  /** Step a, taken in s, is a delivery of event i to the settlement consumer that commits. */
  ghost predicate Commits(s: State, a: Action, i: nat) {
    && a.Settle? && a.i == i && i < |s.log| && UnusedGroup(s.tables.ledger, Txg(a.settleIds.group))
    && SettleEffect(s.tables, s.now, s.log[i], a.settleIds).Some?
  }

  /** The events some step of the run has settled. */
  ghost function Done(s0: State, acts: seq<Action>): set<nat> {
    if acts == [] then {}
    else
      var before, a := acts[..|acts| - 1], acts[|acts| - 1];
      Done(s0, before) + if a.Settle? && Commits(Exec(s0, before), a, a.i) then {a.i} else {}
  }

  /** The run without the deliveries of an event that follow its first committed one. */
  ghost function OncePerEvent(s0: State, acts: seq<Action>): seq<Action> {
    if acts == [] then []
    else
      var before, a := acts[..|acts| - 1], acts[|acts| - 1];
      OncePerEvent(s0, before) + if a.Settle? && a.i in Done(s0, before) then [] else [a]
  }

  /** Everything the event lists is settled. */
  ghost predicate Settled(s: State, i: nat) {
    && i < |s.log| && s.log[i].status == Initiated && s.log[i].paymentIds != {}
    && forall p :: p in s.log[i].paymentIds ==> p in s.tables.payments && s.tables.payments[p].settlement.Some?
  }

  lemma CommitSettles(s: State, a: Action, i: nat)
    requires Inv(s) && Commits(s, a, i)
    ensures Settled(Apply(s, a), i)
  {
    assert EventOk(s, s.log[i]);
    hide Inv;
    var _, _ := SettleShape(s.tables, s.now, s.log[i], a.settleIds);
  }

  lemma SettledStays(s: State, s': State, i: nat)
    requires Settled(s, i) && Evolves(s, s')
    ensures Settled(s', i)
  {
    forall p | p in s.log[i].paymentIds ensures p in s'.tables.payments && s'.tables.payments[p].settlement.Some? {
      assert RowEvolves(s.tables.payments[p], s'.tables.payments[p]);
    }
  }

  lemma RepeatDoesNothing(s: State, i: nat, ids: SettleIds)
    requires Settled(s, i)
    ensures Apply(s, Settle(i, ids)) == s
    ensures SettleEffect(s.tables, s.now, s.log[i], ids).None?
  {
    hide SettleEffect;
    assert Hits(s.tables.payments, Targets(s.log[i])) == {};
    NothingToSettle(s.tables, s.now, s.log[i], ids);
  }

  lemma NothingToSettle(t: Tables, now: nat, e: Event, ids: SettleIds)
    requires Hits(t.payments, Targets(e)) == {}
    ensures SettleEffect(t, now, e, ids).None?
  {
  }

  lemma {:induction false} DoneIsSettled(s0: State, acts: seq<Action>, i: nat)
    requires Initial(s0) && i in Done(s0, acts)
    ensures Settled(Exec(s0, acts), i)
  {
    var before, a := acts[..|acts| - 1], acts[|acts| - 1];
    Always(s0, before);
    if i in Done(s0, before) {
      DoneIsSettled(s0, before, i);
      Step(Exec(s0, before), a);
      SettledStays(Exec(s0, before), Exec(s0, acts), i);
    } else {
      CommitSettles(Exec(s0, before), a, i);
    }
  }

  lemma DoneRepeatDoesNothing(s0: State, acts: seq<Action>, i: nat, ids: SettleIds)
    requires Initial(s0) && i in Done(s0, acts)
    ensures Apply(Exec(s0, acts), Settle(i, ids)) == Exec(s0, acts)
  {
    DoneIsSettled(s0, acts, i);
    RepeatDoesNothing(Exec(s0, acts), i, ids);
  }

  /** At-least-once delivery of settle events refines exactly-once: leaving out every delivery after
      the first committed one changes nothing at all. */
  lemma {:induction false} RepeatsChangeNothing(s0: State, acts: seq<Action>)
    requires Initial(s0)
    ensures Exec(s0, OncePerEvent(s0, acts)) == Exec(s0, acts)
    ensures Done(s0, OncePerEvent(s0, acts)) == Done(s0, acts)
  {
    hide Initial, Apply, Commits;
    if acts != [] {
      var before, a := acts[..|acts| - 1], acts[|acts| - 1];
      RepeatsChangeNothing(s0, before);
      if a.Settle? && a.i in Done(s0, before) {
        assert a == Settle(a.i, a.settleIds);
        DoneRepeatDoesNothing(s0, before, a.i, a.settleIds);
        assert OncePerEvent(s0, acts) == OncePerEvent(s0, before);
        assert Done(s0, acts) == Done(s0, before);
      } else {
        var kept := OncePerEvent(s0, acts);
        assert kept[..|kept| - 1] == OncePerEvent(s0, before);
      }
    }
  }

  /** What is left really delivers no settled event again. */
  lemma {:induction false} NoRepeatsLeft(s0: State, acts: seq<Action>, k: nat)
    requires Initial(s0) && k < |OncePerEvent(s0, acts)| && OncePerEvent(s0, acts)[k].Settle?
    ensures OncePerEvent(s0, acts)[k].i !in Done(s0, OncePerEvent(s0, acts)[..k])
    decreases |acts|
  {
    var before, a := acts[..|acts| - 1], acts[|acts| - 1];
    var kept := OncePerEvent(s0, before);
    if k < |kept| {
      assert OncePerEvent(s0, acts)[..k] == kept[..k];
      NoRepeatsLeft(s0, before, k);
    } else {
      assert OncePerEvent(s0, acts)[..k] == kept;
      RepeatsChangeNothing(s0, before);
    }
  }

  /** No event is settled by two steps of a run. */
  lemma SettledByOneStep(s0: State, acts: seq<Action>, j: nat, k: nat, i: nat)
    requires Initial(s0) && j < k < |acts|
    requires Commits(Exec(s0, acts[..j]), acts[j], i)
    ensures !Commits(Exec(s0, acts[..k]), acts[k], i)
  {
    assert acts[..k][..j] == acts[..j];
    SettledFrom(s0, acts[..k], j, i);
    if Commits(Exec(s0, acts[..k]), acts[k], i) {
      RepeatDoesNothing(Exec(s0, acts[..k]), i, acts[k].settleIds);
    }
  }

  lemma SettledFrom(s0: State, acts: seq<Action>, j: nat, i: nat)
    requires Initial(s0) && j < |acts| && Commits(Exec(s0, acts[..j]), acts[j], i)
    ensures Settled(Exec(s0, acts), i)
  {
    assert acts[..j + 1][..j] == acts[..j];
    Always(s0, acts[..j]);
    CommitSettles(Exec(s0, acts[..j]), acts[j], i);
    NothingUndone(s0, acts, j + 1);
    SettledStays(Exec(s0, acts[..j + 1]), Exec(s0, acts), i);
  }

  // ----- created events -----

  /** Hence a repeated delivery is not harmless: each committed one adds the amount to the merchant's
      payable balance again. */
  lemma RepostPaysAgain(s0: State, acts: seq<Action>, i: nat, ids: LedgerIds)
    requires Initial(s0)
    requires Postable(Exec(s0, acts), i, ids)
    ensures var s := Exec(s0, acts);
            var e := s.log[i];
            var t' := Apply(s, Post(i, ids)).tables;
            && PayableBalance(t', e.merchant, e.currency) == PayableBalance(s.tables, e.merchant, e.currency) + e.amount
            && Captured(t', GroupKey(e.merchant, e.currency))
               == Captured(s.tables, GroupKey(e.merchant, e.currency)) + e.amount
  {
    var s := Exec(s0, acts);
    var e := s.log[i];
    Always(s0, acts);
    PostCommitsWheneverDelivered(s, i, ids);
    assert EventOk(s, e) && PaymentOk(s, e.paymentId.value);
    hide PaymentsOk, PaymentOk, PairsOk, EntriesOk, EventsOk, SettlementsOk, RefundsOk, AccountsOk;
    var t, t' := s.tables, Apply(s, Post(i, ids)).tables;
    var k := GroupKey(e.merchant, e.currency);
    var payable := PostShape(t, s.now, e, ids);
    hide PostEffect;
    AccountsUnique(t.accounts);
    AccountsKept(t.accounts, t'.accounts);
    SystemIsNotPayable(t'.accounts, k);
    BalanceAfterPair(t, t', t'.ledger[|t.ledger|], t'.ledger[|t.ledger| + 1], k);
    CapturedAfterPost(t, t', e.paymentId.value, t'.ledger[|t.ledger|], t'.ledger[|t.ledger| + 1], k);
  }
}
