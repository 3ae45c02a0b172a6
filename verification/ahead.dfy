/** Is a period ever paid for before the one before it has ended? Exactly when a worker selects a subscription
    that another worker has picked, or whose charge can still lead to a renewal. */
module Ahead {
  import opened Schema
  import opened Calendar
  import opened Billing
  import opened Scripts

  /** A charge of k that can still renew it. */
  predicate Claims(s: State, inv: InvoiceId, k: SubId) {
    && inv in s.charges && inv in s.invoices && s.invoices[inv].sub == k
    && (s.charges[inv].Drafted? || (s.charges[inv].Answered? && s.charges[inv].id.Some?))
  }

  /** Worker w selects k although somebody else is on it. */
  ghost predicate Clash(s: State, w: WorkerId, k: SubId) {
    (exists x :: x != w && Picked(s, x, k)) || (exists inv :: Claims(s, inv, k))
  }

  /** No selection of the run clashes over k. */
  ghost predicate NoClash(s: State, acts: seq<Action>, k: SubId) {
    forall i :: 0 <= i < |acts| ==> Peaceful(Exec(s, acts[..i]), acts[i], k)
  }

  ghost predicate Peaceful(s: State, a: Action, k: SubId) {
    a.Select? && k in a.chosen && Selectable(s, a.chosen) ==> !Clash(s, a.w, k)
  }

  /** Every period but the last has ended. */
  ghost predicate Ended(h: seq<Period>, now: nat) {
    forall i :: 0 <= i < |h| - 1 ==> Seconds(h[i].end) <= now
  }

  /** Some period was paid for before the one before it had ended. */
  ghost predicate PaidAhead(s: State, k: SubId) {
    k in s.history && !Ended(s.history[k], s.now)
  }

  ghost predicate Ripe(s: State, k: SubId) {
    k in s.subs && Seconds(s.subs[k].end) <= s.now
  }

  /** At most one worker or charge is on k, and only when its period has ended. */
  ghost predicate Sole(s: State, k: SubId) {
    && (forall w :: Picked(s, w, k) ==> Ripe(s, k) && (forall x :: Picked(s, x, k) ==> x == w))
    && (forall inv :: Claims(s, inv, k) ==> Ripe(s, k) && (forall x :: !Picked(s, x, k)))
    && (forall i, j :: Claims(s, i, k) && Claims(s, j, k) ==> i == j)
    && !PaidAhead(s, k)
  }

  // ----- without a clash -----

  /** Nobody new is on k, and its row and history are the same or new. */
  lemma Fewer(s: State, t: State, k: SubId)
    requires Sole(s, k) && s.now <= t.now
    requires forall w :: Picked(t, w, k) ==> Picked(s, w, k)
    requires forall inv :: Claims(t, inv, k) ==> Claims(s, inv, k)
    requires k in s.subs ==> k in t.subs && t.subs[k].end == s.subs[k].end
    requires k in t.history ==> |t.history[k]| == 1 || (k in s.history && t.history[k] == s.history[k])
    ensures Sole(t, k)
  {
    hide Seconds;
  }

  lemma SoleSubscribe(s: State, x: SubId, interval: Interval, amount: int, at: Stamp, k: SubId)
    requires Inv(s) && Sole(s, k)
    ensures Sole(SubscribeAct(s, x, interval, amount, at), k)
  {
    hide Sole, InvoicesOk, SubOk, GoPlus, ValidStamp;
    Fewer(s, SubscribeAct(s, x, interval, amount, at), k);
  }

  lemma SoleSelect(s: State, w: WorkerId, chosen: set<SubId>, k: SubId)
    requires Sole(s, k) && Selectable(s, chosen) && (k in chosen ==> !Clash(s, w, k))
    ensures Sole(s.(picked := s.picked[w := chosen]), k)
  {
    hide Seconds;
    var t := s.(picked := s.picked[w := chosen]);
    assert forall x :: Picked(t, x, k) <==> if x == w then k in chosen else Picked(s, x, k);
    assert forall inv :: Claims(t, inv, k) <==> Claims(s, inv, k);
    if k in chosen { assert k in DueSubs(s); }
  }

  lemma SoleDraft(s: State, w: WorkerId, x: SubId, inv: InvoiceId, k: SubId)
    requires Sole(s, k)
    ensures Sole(DraftAct(s, w, x, inv), k)
  {
    hide Seconds;
    var t := DraftAct(s, w, x, inv);
    assert forall y :: Picked(t, y, k) ==> Picked(s, y, k);
    assert forall i :: Claims(t, i, k) ==> Claims(s, i, k) || (i == inv && x == k && Picked(s, w, k));
  }

  lemma SolePay(s: State, inv: InvoiceId, charged: Option<PaymentId>, reply: Reply, k: SubId)
    requires Sole(s, k)
    ensures Sole(PayAct(s, inv, charged, reply), k)
  {
    hide Sole;
    Fewer(s, PayAct(s, inv, charged, reply), k);
  }

  lemma SoleGiveUpInvoice(s: State, inv: InvoiceId, fault: bool, k: SubId)
    requires Sole(s, k)
    ensures Sole(GiveUpInvoiceAct(s, inv, fault), k)
  {
    hide Sole;
    Fewer(s, GiveUpInvoiceAct(s, inv, fault), k);
  }

  lemma SoleGiveUp(s: State, inv: InvoiceId, fault: bool, k: SubId)
    requires Sole(s, k)
    ensures Sole(GiveUpSubscriptionAct(s, inv, fault), k)
  {
    hide Sole;
    Fewer(s, GiveUpSubscriptionAct(s, inv, fault), k);
  }

  lemma SoleDrop(s: State, inv: InvoiceId, k: SubId)
    requires Sole(s, k)
    ensures Sole(Drop(s, inv), k)
  {
    hide Sole;
    Fewer(s, Drop(s, inv), k);
  }

  lemma EndedGrows(h: seq<Period>, p: Period, now: nat)
    requires Ended(h, now) && |h| > 0 && Seconds(h[|h| - 1].end) <= now
    ensures Ended(h + [p], now)
  {
    hide Seconds;
  }

  lemma CurrentPeriod(s: State, k: SubId)
    requires Inv(s) && k in s.subs
    ensures k in s.history && |s.history[k]| > 0 && s.history[k][|s.history[k]| - 1].end == s.subs[k].end
  {
    assert SubOk(s, k);
  }

  lemma SoleRenew(s: State, inv: InvoiceId, k: SubId)
    requires Inv(s) && Sole(s, k) && Extends(s, inv)
    ensures Sole(RenewAct(s, inv), k)
  {
    hide Inv, Plus, Ended, Seconds, Renewed;
    var t, x := RenewAct(s, inv), s.invoices[inv].sub;
    assert Claims(s, inv, x);
    assert forall w :: Picked(t, w, k) ==> Picked(s, w, k);
    assert forall i :: Claims(t, i, k) ==> Claims(s, i, k) && i != inv;
    if x == k {
      RenewedEnded(s, inv, k);
    } else {
      Fewer(s, t, k);
    }
  }

  lemma RenewedEnded(s: State, inv: InvoiceId, k: SubId)
    requires Inv(s) && Extends(s, inv) && k == s.invoices[inv].sub && Ripe(s, k) && !PaidAhead(s, k)
    ensures !PaidAhead(RenewAct(s, inv), k)
  {
    hide Inv, Plus, Ended, Seconds;
    CurrentPeriod(s, k);
    EndedGrows(s.history[k], RenewAct(s, inv).history[k][|s.history[k]|], s.now);
  }

  lemma SoleStep(s: State, a: Action, k: SubId)
    requires Inv(s) && Sole(s, k) && Peaceful(s, a, k)
    ensures Sole(Apply(s, a), k)
  {
    hide Inv, Sole, Selectable, Clash, SubscribeAct, DraftAct, PayAct, GiveUpInvoiceAct, GiveUpSubscriptionAct,
         RenewAct;
    match a
    case Subscribe(x, interval, amount, at) => SoleSubscribe(s, x, interval, amount, at, k);
    case Select(w, chosen) => if Selectable(s, chosen) { SoleSelect(s, w, chosen, k); }
    case DraftInvoice(w, x, inv) => SoleDraft(s, w, x, inv, k);
    case Pay(inv, charged, reply) => SolePay(s, inv, charged, reply, k);
    case GiveUpInvoice(inv, fault) => SoleGiveUpInvoice(s, inv, fault, k);
    case GiveUpSubscription(inv, fault) => SoleGiveUp(s, inv, fault, k);
    case Extend(inv, fault) => SoleDrop(s, inv, k); if Extends(s, inv) { SoleRenew(s, inv, k); }
    case StopCharge(inv) => SoleDrop(s, inv, k);
    case _ => Fewer(s, Apply(s, a), k);
  }

  lemma {:induction false} SoleThroughout(s: State, acts: seq<Action>, k: SubId)
    requires Inv(s) && Sole(s, k) && NoClash(s, acts, k)
    ensures Sole(Exec(s, acts), k)
  {
    hide Inv, Sole, Peaceful, Apply;
    if acts != [] {
      var before := acts[..|acts| - 1];
      assert forall i :: 0 <= i <= |before| ==> before[..i] == acts[..i];
      SoleThroughout(s, before, k);
      ExecKeeps(s, before);
      SoleStep(Exec(s, before), acts[|acts| - 1], k);
    }
  }

  /** As long as no selection clashes over a subscription, every period of it but the last has ended: nothing is
      paid ahead. What other subscriptions go through does not matter. */
  lemma NeverAheadOfTime(s: State, acts: seq<Action>, k: SubId)
    requires Initial(s) && NoClash(s, acts, k)
    ensures !PaidAhead(Exec(s, acts), k)
  {
    SoleThroughout(s, acts, k);
  }

  // ----- with a clash -----

  lemma {:induction false} UnusedId(ids: set<nat>) returns (n: nat)
    ensures n !in ids && forall i :: i in ids ==> i < n
  {
    if ids == {} {
      n := 0;
    } else {
      var i :| i in ids;
      var m := UnusedId(ids - {i});
      n := if m <= i then i + 1 else m;
      assert forall j :: j in ids ==> j == i || j in ids - {i};
    }
  }

  function Through(p: PaymentId): Weather {
    Weather(false, false, false, Some(p), Approved, false, false, false, false)
  }

  /** No selection at all. */
  predicate Quiet(acts: seq<Action>) {
    forall i :: 0 <= i < |acts| ==> !acts[i].Select?
  }

  /** Charge k through worker w once; somebody else's pick of k stays. */
  lemma OneMore(s: State, w: WorkerId, x: WorkerId, k: SubId) returns (acts: seq<Action>)
    requires Inv(s) && k in s.subs && Picked(s, w, k) && w != x
    ensures var t := Exec(s, acts);
      && Quiet(acts) && Inv(t) && t.now == s.now && k in t.subs && t.subs[k] == Renewed(s.subs[k])
      && (Picked(s, x, k) ==> Picked(t, x, k))
  {
    hide Inv, Exec, Renewed, Picked;
    var inv := UnusedId(s.invoices.Keys);
    var p := UnusedId(s.payments.Keys);
    acts := ChargeScript(w, k, inv, Through(p));
    FirstRenews(s, w, x, k, inv, Through(p));
  }

  /** The charge that is still at work goes through. */
  lemma ClaimGoesThrough(s: State, w: WorkerId, inv: InvoiceId, k: SubId) returns (acts: seq<Action>)
    requires Inv(s) && Claims(s, inv, k) && Picked(s, w, k)
    ensures var t := Exec(s, acts);
      && Quiet(acts) && Inv(t) && t.now == s.now && k in t.subs && t.subs[k] == Renewed(s.subs[k]) && Picked(t, w, k)
  {
    hide Inv, Exec, Renewed, Picked, Claims;
    ClaimHolds(s, inv, k);
    if s.charges[inv].Drafted? {
      var p := UnusedId(s.payments.Keys);
      acts := [Pay(inv, Some(p), Approved), Extend(inv, false)];
      DraftedGoesThrough(s, w, inv, k, p);
    } else {
      acts := [Extend(inv, false)];
      ExtendRuns(s, inv);
      AnsweredGoesThrough(s, w, inv, k);
    }
    ExecKeeps(s, acts);
  }

  lemma ClaimHolds(s: State, inv: InvoiceId, k: SubId)
    requires Inv(s) && Claims(s, inv, k)
    ensures k in s.subs && s.history.Keys == s.subs.Keys && inv in s.charges
    ensures s.charges[inv].Drafted?
            || (s.charges[inv].Answered? && s.charges[inv].id.Some? && s.charges[inv].id.value in s.payments)
  {
    InvoiceHolds(s, inv);
    KeysMeet(s);
    hide Inv, SubOk;
  }

  lemma ExtendRuns(s: State, inv: InvoiceId)
    ensures Exec(s, [Extend(inv, false)]) == ExtendAct(s, inv, false)
  {
    Runs(s, Extend(inv, false), Extend(inv, false), Extend(inv, false), Extend(inv, false));
    hide Exec, ExtendAct;
  }

  lemma AnsweredGoesThrough(s: State, w: WorkerId, inv: InvoiceId, k: SubId)
    requires Claims(s, inv, k) && Picked(s, w, k) && s.charges[inv].Answered? && s.charges[inv].id.value in s.payments
    requires k in s.subs && s.history.Keys == s.subs.Keys
    ensures var t := ExtendAct(s, inv, false);
      t.now == s.now && k in t.subs && t.subs[k] == Renewed(s.subs[k]) && Picked(t, w, k)
  {
    hide Renewed;
  }

  lemma DraftedGoesThrough(s: State, w: WorkerId, inv: InvoiceId, k: SubId, p: PaymentId)
    requires Claims(s, inv, k) && Picked(s, w, k) && s.charges[inv].Drafted? && p !in s.payments
    requires k in s.subs && s.history.Keys == s.subs.Keys
    ensures var t := Exec(s, [Pay(inv, Some(p), Approved), Extend(inv, false)]);
      t.now == s.now && k in t.subs && t.subs[k] == Renewed(s.subs[k]) && Picked(t, w, k)
  {
    Runs(s, Pay(inv, Some(p), Approved), Extend(inv, false), Extend(inv, false), Extend(inv, false));
    var s1 := PayAct(s, inv, Some(p), Approved);
    hide Exec, Renewed, ExtendAct;
    AnsweredGoesThrough(s1, w, inv, k);
  }

  /** Renewed twice with the clock standing still: the first renewal had not ended. */
  lemma TwiceIsAhead(s: State, t: State, k: SubId)
    requires Inv(s) && Inv(t) && Evolves(s, t) && k in s.subs && k in t.subs && t.now == s.now
    requires t.subs[k] == Renewed(Renewed(s.subs[k])) && s.now < Seconds(Renewed(s.subs[k]).end)
    ensures PaidAhead(t, k)
  {
    CurrentPeriod(s, k);
    CurrentPeriod(t, k);
    SubAmount(s, k);
    SubAmount(t, k);
    var h := t.history[k];
    if |h| == 1 {
      assert s.history[k] <= h;
      assert s.history[k] == h;
      LaterEnd(s, k);
      assert false;
    }
    hide Seconds, Plus, Inv, Evolves;
    assert h[|h| - 1].start == Renewed(s.subs[k]).end;
    assert h[|h| - 2].end == h[|h| - 1].start;
  }

  lemma LaterEnd(s: State, k: SubId)
    requires Inv(s) && k in s.subs
    ensures Renewed(Renewed(s.subs[k])).end != s.subs[k].end
  {
    SubAmount(s, k);
    ChainEnd(s.subs[k].interval, s.history[k]);
    hide Seconds, Plus, Chain;
    PlusAdvances(s.subs[k].interval, s.subs[k].end);
    PlusAdvances(s.subs[k].interval, Plus(s.subs[k].interval, s.subs[k].end));
  }

  lemma ClashPaysAhead(s: State, w: WorkerId, k: SubId) returns (rest: seq<Action>)
    requires Inv(s) && Picked(s, w, k) && Clash(s, w, k) && k in s.subs && s.now < Seconds(Renewed(s.subs[k]).end)
    ensures Quiet(rest) && PaidAhead(Exec(s, rest), k)
  {
    hide Inv, Exec, Renewed, Seconds, PaidAhead;
    var first, second;
    if x :| x != w && Picked(s, x, k) {
      first := OneMore(s, x, w, k);
    } else {
      var inv :| Claims(s, inv, k);
      first := ClaimGoesThrough(s, w, inv, k);
    }
    var s1 := Exec(s, first);
    second := OneMore(s1, w, w + 1, k);
    rest := first + second;
    ExecAppend(s, first, second);
    ExecEvolves(s, rest);
    TwiceIsAhead(s, Exec(s1, second), k);
  }

  lemma QuietIsPeaceful(s: State, acts: seq<Action>, k: SubId)
    requires Quiet(acts)
    ensures NoClash(s, acts, k)
  {
  }

  lemma ClashStays(s: State, w: WorkerId, chosen: set<SubId>, k: SubId)
    requires k in chosen && Clash(s, w, k)
    ensures Clash(s.(picked := s.picked[w := chosen]), w, k) && Picked(s.(picked := s.picked[w := chosen]), w, k)
  {
    var t := s.(picked := s.picked[w := chosen]);
    if x :| x != w && Picked(s, x, k) {
      assert Picked(t, x, k);
    } else {
      var inv :| Claims(s, inv, k);
      assert Claims(t, inv, k);
    }
  }

  /** The exact condition. Suppose nothing was paid ahead so far, worker w selects the due subscription k, and one
      renewal would bring its end past now. Then k can be paid ahead in a continuation without any further clash
      if and only if this selection clashes. */
  lemma PaidAheadIffClash(s: State, w: WorkerId, chosen: set<SubId>, k: SubId)
    requires Inv(s) && Sole(s, k) && Selectable(s, chosen) && k in chosen && k in s.subs
    requires s.now < Seconds(Renewed(s.subs[k]).end)
    ensures var t := Apply(s, Select(w, chosen));
      (exists rest :: NoClash(t, rest, k) && PaidAhead(Exec(t, rest), k)) <==> Clash(s, w, k)
  {
    var t := Apply(s, Select(w, chosen));
    Step(s, Select(w, chosen));
    if Clash(s, w, k) {
      hide Inv, Sole, Seconds, Renewed, PaidAhead, NoClash;
      ClashStays(s, w, chosen, k);
      var rest := ClashPaysAhead(t, w, k);
      QuietIsPeaceful(t, rest, k);
    } else {
      SoleSelect(s, w, chosen, k);
      forall rest | NoClash(t, rest, k) ensures !PaidAhead(Exec(t, rest), k) {
        hide Inv, Exec, NoClash, Clash, Apply;
        SoleThroughout(t, rest, k);
      }
    }
  }

  /** It happens: from the empty tables, two workers select the one due subscription. */
  lemma AheadFromStart(k: SubId, at: Stamp) returns (rest: seq<Action>)
    requires ValidStamp(at)
    ensures Initial(EMPTY)
    ensures PaidAhead(Exec(EMPTY, UntilDue(k, at) + ([Select(0, {k}), Select(1, {k})] + rest)), k)
  {
    var s := Exec(EMPTY, UntilDue(k, at));
    DueAtEnd(k, at);
    PlusAdvances(EveryMonth, at);
    PlusAdvances(EveryMonth, GoPlus(EveryMonth, at));
    IntervalStays(k, at);
    var two := [Select(0, {k}), Select(1, {k})];
    var t := Exec(s, two);
    hide Inv, Seconds, Plus, GoPlus, ValidStamp, UntilDue, PaidAhead;
    BothPick(s, k);
    ExecKeeps(s, two);
    rest := ClashPaysAhead(t, 1, k);
    hide Exec;
    ExecAppend(s, two, rest);
    ExecAppend(EMPTY, UntilDue(k, at), two + rest);
  }

  lemma IntervalStays(k: SubId, at: Stamp)
    requires ValidStamp(at)
    ensures k in Exec(EMPTY, UntilDue(k, at)).subs && Exec(EMPTY, UntilDue(k, at)).subs[k].interval == EveryMonth
  {
    hide Seconds, GoPlus, ValidStamp;
    Runs(EMPTY, Subscribe(k, EveryMonth, 1, at), Wait(Seconds(GoPlus(EveryMonth, at))), Wait(0), Wait(0));
  }

  lemma BothPick(s: State, k: SubId)
    requires DueSubs(s) == {k}
    ensures var t := Exec(s, [Select(0, {k}), Select(1, {k})]);
      t.subs == s.subs && t.now == s.now && Picked(t, 0, k) && Picked(t, 1, k) && Clash(t, 1, k)
  {
    var s1 := s.(picked := s.picked[0 := {k}]);
    assert DueSubs(s1) == DueSubs(s);
    Runs(s, Select(0, {k}), Select(1, {k}), Select(1, {k}), Select(1, {k}));
    hide Exec, Due;
    assert Apply(s, Select(0, {k})) == s1;
  }
}
