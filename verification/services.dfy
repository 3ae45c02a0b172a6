/** The handlers as the services write them, statement by statement, proved all-or-nothing against
    the effects for a fault injected at any statement. */
module Services {
  import opened Sums
  import opened Schema
  import opened Effects
  import opened Store
  import opened Pipeline
  import opened Rounds

  /** The account of (m, kind, c): looked up, and created under a new id when the lookup fails for any
      reason. After a failed lookup the creation fails too. */
  method FindOrCreate(db: Database, m: MerchantId, kind: AccountType, c: Currency, newId: nat, findFault: bool,
                      addFault: bool)
    returns (a: Option<AccountId>)
    requires UniqueAccounts(db.accounts) && !db.aborted && kind != BankTransit
    modifies db`accounts, db`aborted
    ensures a.Some? <==> !db.aborted
    ensures a.Some? ==> EnsureAccount(old(db.View()), m, kind, c, newId) == Some(db.View())
    ensures a.Some? ==> UniqueAccounts(db.accounts) && FindAccount(db.accounts, m, kind, c) == a
    ensures a.None? && !findFault && !addFault ==> EnsureAccount(old(db.View()), m, kind, c, newId).None?
  {
    var found := db.LookupAccount(m, kind, c, findFault);
    if found.Found? {
      return Some(found.a);
    }
    var ok := db.AddAccount(Generated(newId), Account(Some(m), kind, c), addFault);
    if !ok {
      return None;
    }
    assert EnsureAccount(old(db.View()), m, kind, c, newId) == Some(db.View());
    EnsureAccountShape(old(db.View()), m, kind, c, newId);
    assert IsAccount(db.accounts, Generated(newId), m, kind, c);
    return Some(Generated(newId));
  }

  /** The two ledger inserts of every posting. */
  method AddPair(db: Database, d: Entry, c: Entry, debitFault: bool, creditFault: bool) returns (ok: bool)
    requires !db.aborted
    modifies db`ledger, db`aborted
    ensures ok == !db.aborted
    ensures ok ==> InsertPair(old(db.View()), d, c) == Some(db.View())
    ensures !ok && !debitFault && !creditFault ==> InsertPair(old(db.View()), d, c).None?
  {
    ok := db.AddEntry(d, debitFault);
    if ok {
      ok := db.AddEntry(c, creditFault);
    }
  }

  method EnsureSystemAccount(db: Database, c: Currency, checkFault: bool, addFault: bool) returns (ok: bool)
    requires !db.aborted
    modifies db`accounts, db`aborted
    ensures ok == !db.aborted
    ensures ok ==> EnsureSystem(old(db.View()), c) == Some(db.View())
    ensures ok ==> db.accounts == if System in old(db.accounts) then old(db.accounts)
                                  else old(db.accounts)[System := Account(None, BankTransit, c)]
    ensures !ok && !checkFault && !addFault ==> EnsureSystem(old(db.View()), c).None?
  {
    var present := db.AccountExists(System, checkFault);
    if present.None? {
      return false;
    }
    ok := true;
    if !present.value {
      ok := db.AddAccount(System, Account(None, BankTransit, c), addFault);
    }
  }

  /** What webhook subscribers are told of a payment. */
  function Notice(status: Status, p: PaymentId, e: Event): Event {
    Event(status, Some(p), {}, 0, e.amount, e.currency)
  }

  class LedgerService {
    const db: Database
    const webhooks: EventLog

    constructor (db: Database, webhooks: EventLog)
      ensures this.db == db && this.webhooks == webhooks
    {
      this.db, this.webhooks := db, webhooks;
    }

    /** The notice is sent after a commit that was acknowledged, and nobody waits for it. */
    method HandlePaymentEvent(e: Event, ids: LedgerIds, faults: set<Statement>, lost: bool) returns (r: Outcome)
      requires !db.inTx && UniqueAccounts(db.accounts)
      modifies db, webhooks
      ensures !db.inTx && db.clock == old(db.clock)
      ensures e.status != Created ==> r == Skipped && db.View() == old(db.View())
      ensures webhooks.messages
              == old(webhooks.messages) + if r == Committed && e.paymentId.Some? && !lost
                                          then [Event(Initiated, e.paymentId, {}, 0, e.amount, e.currency)] else []
      ensures AllOrNothing(old(db.View()), db.View(), PostEffect(old(db.View()), db.clock, e, ids), r, faults)
    {
      if e.status != Created {
        return Skipped;
      }
      var began := db.Begin(BeginTx in faults);
      if !began {
        return Errored;
      }
      var ok := Record(e, ids, faults);
      if ok {
        var acked := db.Commit(CommitTx in faults, CommitAck in faults);
        r := if acked then Committed else Errored;
      } else {
        r := Errored;
      }
      db.Rollback();
      if r == Committed && e.paymentId.Some? {
        var _ := webhooks.Publish(Notice(Initiated, e.paymentId.value, e), lost);
      }
    }

    /** The statements between begin and commit. */
    method Record(e: Event, ids: LedgerIds, faults: set<Statement>) returns (ok: bool)
      requires !db.aborted && UniqueAccounts(db.accounts) && e.status == Created
      modifies db`payments, db`accounts, db`ledger, db`aborted
      ensures ok ==> !db.aborted && PostEffect(old(db.View()), db.clock, e, ids) == Some(db.View())
      ensures !ok && faults == {} ==> PostEffect(old(db.View()), db.clock, e, ids).None?
    {
      if e.paymentId.None? {
        return false;
      }
      var p := e.paymentId.value;
      var owner := db.MerchantOf(p, ReadPayment in faults);
      if owner.None? {
        return false;
      }
      var m := owner.value;
      ok := db.SetPayment(p, db.payments[p].(status := Initiated, updatedAt := db.clock), MarkPayment in faults);
      if !ok {
        return;
      }
      assert db.View() == MarkInitiated(old(db.View()), db.clock, p);
      var payable := FindOrCreate(db, m, MerchantPayable, e.currency, ids.payable, FindPayable in faults,
                                  AddPayable in faults);
      if payable.None? {
        return false;
      }
      ok := EnsureSystemAccount(db, e.currency, CheckSystem in faults, AddSystem in faults);
      if !ok {
        return;
      }
      ok := AddPair(db, Entry(Txg(ids.group), System, Some(p), Debit, e.amount, e.currency),
                    Entry(Txg(ids.group), payable.value, Some(p), Credit, e.amount, e.currency),
                    AddDebit in faults, AddCredit in faults);
    }
  }

  function Notices(e: Event, sent: seq<PaymentId>): seq<Event> {
    seq(|sent|, i requires 0 <= i < |sent| => Notice(Settled, sent[i], e))
  }

  class SettlementService {
    const db: Database
    const log: EventLog

    constructor (db: Database, log: EventLog)
      ensures this.db == db && this.log == log
    {
      this.db, this.log := db, log;
    }

    /** After an acknowledged commit one notice is sent for each listed payment, in any order, and nobody waits. */
    method HandleSettleEvent(e: Event, ids: SettleIds, faults: set<Statement>, lost: set<PaymentId>)
      returns (r: Outcome, sent: seq<PaymentId>)
      requires !db.inTx && UniqueAccounts(db.accounts)
      modifies db, log
      ensures !db.inTx && db.clock == old(db.clock)
      ensures e.status != Initiated ==> r == Skipped && db.View() == old(db.View())
      ensures AllOrNothing(old(db.View()), db.View(), SettleEffect(old(db.View()), db.clock, e, ids), r, faults)
      ensures log.messages == old(log.messages) + Notices(e, sent) && Distinct(sent)
      ensures (set p | p in sent) == if r == Committed then Targets(e) - lost else {}
      ensures forall i :: 0 <= i < |sent| ==>
                log.messages[|old(log.messages)| + i] == Event(Settled, Some(sent[i]), {}, 0, e.amount, e.currency)
    {
      sent := [];
      if e.status != Initiated {
        return Skipped, sent;
      }
      var began := db.Begin(BeginTx in faults);
      if !began {
        return Errored, sent;
      }
      r := Settle(e, ids, faults);
      if r == Committed {
        var acked := db.Commit(CommitTx in faults, CommitAck in faults);
        r := if acked then Committed else Errored;
      }
      db.Rollback();
      if r == Committed {
        sent := Notify(e, lost);
      }
    }

    /** The loop over the payments of a settled event. */
    method Notify(e: Event, lost: set<PaymentId>) returns (sent: seq<PaymentId>)
      modifies log
      ensures log.messages == old(log.messages) + Notices(e, sent) && Distinct(sent)
      ensures (set p | p in sent) == Targets(e) - lost
    {
      sent := [];
      var todo := Targets(e);
      while todo != {}
        invariant todo <= Targets(e) && (set p | p in sent) == Targets(e) - lost - todo
        invariant Distinct(sent) && log.messages == old(log.messages) + Notices(e, sent)
        decreases todo
      {
        var p :| p in todo;
        assert p !in sent by { assert p !in (set q | q in sent); }
        assert Targets(e) - lost - (todo - {p}) == (Targets(e) - lost - todo) + if p in lost then {} else {p};
        todo := todo - {p};
        var ok := log.Publish(Notice(Settled, p, e), p in lost);
        if ok {
          assert Notices(e, sent + [p]) == Notices(e, sent) + [Notice(Settled, p, e)];
          assert (set q | q in sent + [p]) == (set q | q in sent) + {p};
          sent := sent + [p];
        }
      }
    }

    /** The statements between begin and commit; `Committed` asks for the commit. */
    method Settle(e: Event, ids: SettleIds, faults: set<Statement>) returns (r: Outcome)
      requires !db.aborted && UniqueAccounts(db.accounts) && e.status == Initiated
      modifies db`payments, db`settlements, db`accounts, db`ledger, db`aborted
      ensures r == Committed ==> !db.aborted && SettleEffect(old(db.View()), db.clock, e, ids) == Some(db.View())
      ensures r != Committed && faults == {} ==> SettleEffect(old(db.View()), db.clock, e, ids).None?
    {
      var ok := db.AddSettlement(ids.settlement, Settlement(e.merchant, e.amount, e.currency),
                                 AddSettlementRow in faults);
      if !ok {
        return Errored;
      }
      var targets: set<PaymentId> := {};
      if e.paymentIds != {} {
        targets := e.paymentIds;
      } else if e.paymentId.Some? {
        targets := {e.paymentId.value};
      }
      if targets == {} {
        return Skipped;
      }
      var rows;
      ok, rows := db.AttachUnsettled(targets, ids.settlement, AttachPayments in faults);
      if !ok {
        return Errored;
      }
      if rows == 0 {
        return Skipped;
      }
      assert Hits(old(db.payments), Targets(e)) != {};
      r := Book(e, ids, faults);
    }

    /** Both accounts and both ledger entries. */
    method Book(e: Event, ids: SettleIds, faults: set<Statement>) returns (r: Outcome)
      requires !db.aborted && UniqueAccounts(db.accounts)
      modifies db`accounts, db`ledger, db`aborted
      ensures r == Committed ==> !db.aborted && BookEffect(old(db.View()), e, ids) == Some(db.View())
      ensures r != Committed && faults == {} ==> BookEffect(old(db.View()), e, ids).None?
    {
      var payable := FindOrCreate(db, e.merchant, MerchantPayable, e.currency, ids.payable, FindPayable in faults,
                                  AddPayable in faults);
      if payable.None? {
        return Errored;
      }
      var bank := FindOrCreate(db, e.merchant, MerchantSettlement, e.currency, ids.bank, FindBank in faults,
                               AddBank in faults);
      if bank.None? {
        return Errored;
      }
      var ok := AddPair(db, Entry(Txg(ids.group), payable.value, None, Debit, e.amount, e.currency),
                        Entry(Txg(ids.group), bank.value, None, Credit, e.amount, e.currency),
                        AddDebit in faults, AddCredit in faults);
      return if ok then Committed else Errored;
    }

    /** The aggregate of the poll: one row per merchant and currency with something due. */
    method QueryDue() returns (rows: Rows)
      ensures rows.Keys == DueKeys(db.View(), db.clock)
      ensures forall k :: k in rows ==>
                rows[k] == (Total(db.payments, Group(db.View(), db.clock, k)), Group(db.View(), db.clock, k))
      ensures forall k :: k in rows ==>
                rows[k].1 == (set p | p in db.payments && KeyOf(db.payments[p]) == k
                                      && Ready(db.merchants, db.clock, db.payments[p]))
      ensures forall p :: p in db.payments && Ready(db.merchants, db.clock, db.payments[p]) ==>
                KeyOf(db.payments[p]) in rows
    {
      hide Grouped;
      rows := map[];
      var todo := db.payments.Keys;
      ghost var t := db.View();
      NothingGrouped(t, db.clock);
      assert db.payments.Keys - todo == {};
      while todo != {}
        invariant todo <= db.payments.Keys
        invariant Grouped(t, db.clock, db.payments.Keys - todo, rows)
        decreases |todo|
      {
        var p :| p in todo;
        var row := db.payments[p];
        ghost var seen := db.payments.Keys - todo;
        todo := todo - {p};
        assert db.payments.Keys - todo == seen + {p};
        if DueRow(db.merchants, db.clock, row) {
          var k := KeyOf(row);
          AddRow(t, db.clock, seen, rows, p);
          var before := if k in rows then rows[k] else (0, {});
          rows := rows[k := (before.0 + row.amount, before.1 + {p})];
        } else {
          SkipRow(t, db.clock, seen, rows, p);
        }
      }
      assert db.payments.Keys - todo == db.payments.Keys;
      AllGrouped(t, db.clock, rows);
      AllReady(t, db.clock);
    }

    /** Publishes at most a hundred of the due groups, in whatever order the rows come. */
    method PollAndDispatchSettlements(queryFails: bool, badRows: set<GroupKey>, lost: set<GroupKey>)
      returns (sent: seq<GroupKey>)
      modifies log
      ensures CanPublish(db.View(), db.clock, sent)
      ensures log.messages == old(log.messages) + GroupEvents(db.View(), db.clock, sent)
      ensures queryFails ==> sent == []
      ensures forall k, p :: k in sent ==>
                (p in Group(db.View(), db.clock, k) <==>
                 p in db.payments && KeyOf(db.payments[p]) == k && Ready(db.merchants, db.clock, db.payments[p]))
      ensures forall k :: k in sent ==> k !in badRows && k !in lost
      ensures !queryFails && badRows == {} && lost == {}
              && (forall k :: k in DueKeys(db.View(), db.clock) ==>
                  Total(db.payments, Group(db.View(), db.clock, k)) <= 9223372036854775807)
              ==> FullPoll(db.View(), db.clock, sent)
    {
      if queryFails {
        return [];
      }
      var rows := QueryDue();
      sent := Dispatch(rows, badRows, lost);
      RowsAreGroups(db.View(), db.clock, rows, sent);
      AllReady(db.View(), db.clock);
    }

    /** The loop over the rows: the first hundred that come, one event for each that can be scanned. */
    method Dispatch(rows: Rows, badRows: set<GroupKey>, lost: set<GroupKey>) returns (sent: seq<GroupKey>)
      modifies log
      ensures log.messages == old(log.messages) + RowEvents(rows, sent)
      ensures |sent| <= POLL_LIMIT && Distinct(sent)
      ensures forall k :: k in sent ==> k in rows && rows[k].0 <= MAX_INT64 && k !in badRows && k !in lost
      ensures badRows == {} && lost == {} && (forall k :: k in rows ==> rows[k].0 <= 9223372036854775807)
              ==> |sent| == if |rows.Keys| <= POLL_LIMIT then |rows.Keys| else POLL_LIMIT
    {
      sent := [];
      var left := rows.Keys;
      var taken := 0;
      while left != {} && taken < POLL_LIMIT
        invariant left <= rows.Keys && taken == |rows.Keys| - |left| && taken <= POLL_LIMIT
        invariant |sent| <= taken && Distinct(sent)
        invariant forall k :: k in sent ==>
                    k in rows && k !in left && rows[k].0 <= MAX_INT64 && k !in badRows && k !in lost
        invariant log.messages == old(log.messages) + RowEvents(rows, sent)
        invariant badRows == {} && lost == {} && (forall k :: k in rows ==> rows[k].0 <= MAX_INT64) ==> |sent| == taken
        decreases |left|
      {
        var k :| k in left;
        left := left - {k};
        taken := taken + 1;
        if k !in badRows && rows[k].0 <= MAX_INT64 {
          var ok := log.Publish(RowEvent(rows, k), k in lost);
          if ok {
            assert RowEvents(rows, sent + [k]) == RowEvents(rows, sent) + [RowEvent(rows, k)];
            sent := sent + [k];
          }
        }
      }
    }
  }

  type Rows = map<GroupKey, (int, set<PaymentId>)>

  function RowEvent(rows: Rows, k: GroupKey): Event {
    if k in rows then Event(Initiated, None, rows[k].1, k.merchant, rows[k].0, k.currency)
    else Event(Initiated, None, {}, k.merchant, 0, k.currency)
  }

  function RowEvents(rows: Rows, keys: seq<GroupKey>): seq<Event> {
    seq(|keys|, i requires 0 <= i < |keys| => RowEvent(rows, keys[i]))
  }

  lemma RowsAreGroups(t: Tables, now: nat, rows: Rows, keys: seq<GroupKey>)
    requires rows.Keys == DueKeys(t, now)
    requires forall k :: k in rows ==> rows[k] == (Total(t.payments, Group(t, now, k)), Group(t, now, k))
    requires forall k :: k in keys ==> k in rows
    ensures RowEvents(rows, keys) == GroupEvents(t, now, keys)
  {
    forall i | 0 <= i < |keys|
      ensures RowEvent(rows, keys[i]) == GroupEvent(t, now, keys[i])
    {
      assert keys[i] in keys;
    }
  }

  class AdminService {
    const db: Database

    constructor (db: Database)
      ensures this.db == db
    {
      this.db := db;
    }

    method IssueRefund(m: MerchantId, p: PaymentId, amount: int, r: RefundId, faults: set<Statement>)
      returns (o: Outcome)
      requires !db.inTx && UniqueAccounts(db.accounts)
      modifies db
      ensures !db.inTx && db.clock == old(db.clock)
      ensures AllOrNothing(old(db.View()), db.View(), RefundEffect(old(db.View()), m, p, amount, r), o, faults)
    {
      var began := db.Begin(BeginTx in faults);
      if !began {
        return Errored;
      }
      var ok := Refunding(m, p, amount, r, faults);
      if ok {
        var acked := db.Commit(CommitTx in faults, CommitAck in faults);
        o := if acked then Committed else Errored;
      } else {
        o := Errored;
      }
      db.Rollback();
    }

    method Refunding(m: MerchantId, p: PaymentId, amount: int, r: RefundId, faults: set<Statement>) returns (ok: bool)
      requires !db.aborted && UniqueAccounts(db.accounts)
      modifies db`payments, db`refunds, db`ledger, db`aborted
      ensures ok ==> !db.aborted && RefundEffect(old(db.View()), m, p, amount, r) == Some(db.View())
      ensures !ok && faults == {} ==> RefundEffect(old(db.View()), m, p, amount, r).None?
    {
      var owner := db.MerchantOf(p, ReadPayment in faults);
      if owner != Some(m) {
        return false;
      }
      if db.payments[p].status != Processed {
        return false;
      }
      if amount != db.payments[p].amount {
        return false;
      }
      ok := db.AddRefund(r, Refund(p, m, amount, LowerUsd), AddRefundRow in faults);
      if !ok {
        return;
      }
      ok := db.SetPayment(p, db.payments[p].(status := Refunded), MarkPayment in faults);
      if !ok {
        return;
      }
      var payable := db.LookupAccount(m, MerchantPayable, LowerUsd, FindPayable in faults);
      if !payable.Found? {
        return false;
      }
      ok := AddPair(db, Entry(RefundGroup(r), payable.a, None, Debit, amount, LowerUsd),
                    Entry(RefundGroup(r), System, None, Credit, amount, LowerUsd),
                    AddDebit in faults, AddCredit in faults);
    }

    /** Changing the schedule; switching to instant also tries to settle what is pending, and the
        outcome of that is ignored. */
    method UpdateMerchantSettings(m: MerchantId, schedule: Schedule, s: SettlementId, group: nat, updateFault: bool,
                                  faults: set<Statement>)
      returns (ok: bool)
      requires !db.inTx && UniqueAccounts(db.accounts)
      modifies db
      ensures !db.inTx && db.clock == old(db.clock) && ok == !updateFault
      ensures !ok ==> db.View() == old(db.View())
      ensures ok ==> db.merchants == if m in old(db.merchants) then old(db.merchants)[m := schedule]
                                     else old(db.merchants)
      ensures ok ==> var t := old(db.View()).(merchants := db.merchants);
                     && (db.View() == t || (schedule == Instant
                                            && AdminSettleEffect(t, db.clock, m, s, group) == Some(db.View())))
                     && (AdminPayable(m) !in old(db.accounts) ==> db.View() == t)
                     && (schedule == Instant && faults == {} && AdminSettleEffect(t, db.clock, m, s, group).Some? ==>
                           AdminSettleEffect(t, db.clock, m, s, group) == Some(db.View()))
      ensures ok && AdminPayable(m) !in old(db.accounts) ==>
                db.View() == Apply(State(db.clock, old(db.View()), map[], []), ChangeSchedule(m, schedule)).tables
    {
      if updateFault {
        return false;
      }
      if m in db.merchants {
        db.merchants := db.merchants[m := schedule];
      }
      ghost var t := db.View();
      if schedule == Instant {
        var _ := SettlePendingPayments(m, s, group, faults);
        if AdminSettleEffect(t, db.clock, m, s, group).Some? {
          AdminSettleNeedsAccount(t, db.clock, m, s, group);
        }
      }
      return true;
    }

    method SettlePendingPayments(m: MerchantId, s: SettlementId, group: nat, faults: set<Statement>)
      returns (r: Outcome)
      requires !db.inTx
      modifies db
      ensures !db.inTx && db.clock == old(db.clock)
      ensures AllOrNothing(old(db.View()), db.View(), AdminSettleEffect(old(db.View()), db.clock, m, s, group), r,
                           faults)
    {
      var began := db.Begin(BeginTx in faults);
      if !began {
        return Errored;
      }
      r := SettlingPending(m, s, group, faults);
      if r == Committed {
        var acked := db.Commit(CommitTx in faults, CommitAck in faults);
        r := if acked then Committed else Errored;
      }
      db.Rollback();
    }

    method SettlingPending(m: MerchantId, s: SettlementId, group: nat, faults: set<Statement>) returns (r: Outcome)
      requires !db.aborted
      modifies db`payments, db`settlements, db`ledger, db`aborted
      ensures r == Committed ==>
              !db.aborted && AdminSettleEffect(old(db.View()), db.clock, m, s, group) == Some(db.View())
      ensures r != Committed && faults == {} ==> AdminSettleEffect(old(db.View()), db.clock, m, s, group).None?
    {
      var total, pending := QueryPending(m);
      if ReadPending in faults || total > MAX_INT64 || pending == {} {
        return Skipped;
      }
      var ok := db.AddSettlement(s, Settlement(m, total, UpperUsd), AddSettlementRow in faults);
      if !ok {
        return Errored;
      }
      assert Hits(db.payments, pending) == pending;
      var rows;
      ok, rows := db.AttachUnsettled(pending, s, AttachPayments in faults);
      if !ok {
        return Errored;
      }
      ok := AddPair(db, Entry(AdminGroup(group), AdminPayable(m), None, Debit, total, Inr),
                    Entry(AdminGroup(group), AdminSettlement(m), None, Credit, total, Inr),
                    AddDebit in faults, AddCredit in faults);
      return if ok then Committed else Errored;
    }

    /** SUM and the rows it is taken over, by one pass over the payments. */
    method QueryPending(m: MerchantId) returns (total: int, pending: set<PaymentId>)
      ensures pending == Pending(db.payments, m) && total == Total(db.payments, pending)
      ensures forall p :: p in pending <==>
                p in db.payments && db.payments[p].merchant == m && db.payments[p].status == Initiated
                && db.payments[p].settlement.None?
    {
      total, pending := 0, {};
      var todo := db.payments.Keys;
      while todo != {}
        invariant todo <= db.payments.Keys
        invariant pending == Pending(db.payments, m) - todo
        invariant total == Total(db.payments, pending)
        decreases |todo|
      {
        var p :| p in todo;
        todo := todo - {p};
        if p in Pending(db.payments, m) {
          ghost var payments := db.payments;
          SumAdd(pending, q => AmountOf(payments, q), p);
          total := total + db.payments[p].amount;
          pending := pending + {p};
        }
      }
    }
  }

  datatype Response = BadAmount | ServerError | Accepted(p: PaymentId, status: Status)

  class PaymentService {
    const db: Database
    const log: EventLog

    constructor (db: Database, log: EventLog)
      ensures this.db == db && this.log == log
    {
      this.db, this.log := db, log;
    }

    /** The insert in its transaction. stored without ok: only the acknowledgement was lost. */
    method StorePayment(p: PaymentId, req: Request, key: Key, token: Token, faults: set<Statement>)
      returns (ok: bool, stored: bool)
      requires !db.inTx
      modifies db
      ensures !db.inTx && db.clock == old(db.clock) && (ok ==> stored)
      ensures var t := InsertPayment(old(db.View()), p, NewRow(req, key, db.clock), token);
              if stored then t == Some(db.View()) else db.View() == old(db.View())
      ensures stored ==> Acceptable(old(db.View()), p, req.merchant, key, req.amount, token)
      ensures faults == {} && Acceptable(old(db.View()), p, req.merchant, key, req.amount, token) ==> ok
    {
      InsertIffAcceptable(db.View(), p, NewRow(req, key, db.clock), token);
      var began := db.Begin(BeginTx in faults);
      if !began {
        return false, false;
      }
      if ReadToken in faults || token !in db.tokens {
        db.Rollback();
        return false, false;
      }
      ok := db.AddPayment(p, NewRow(req, key, db.clock), token, AddPaymentRow in faults);
      if !ok {
        db.Rollback();
        return false, false;
      }
      ok := db.Commit(CommitTx in faults, CommitAck in faults);
      stored := CommitTx !in faults;
    }

    /** The three separate writes of a payment: insert, status, event. Whatever fails, what has been
        written is what the first `steps` of them write, and a client is told `Accepted` only after
        the first two. */
    method ProcessPayment(p: PaymentId, req: Request, key: Key, token: Token, approved: bool, faults: set<Statement>,
                          lost: bool)
      returns (r: Response, steps: nat)
      requires !db.inTx
      modifies db, log
      ensures !db.inTx && db.clock == old(db.clock) && steps <= 3
      ensures var acts := [Insert(p, req, key, token), Mark(p, approved), Publish(p)];
              var s := Exec(State(db.clock, old(db.View()), map[], old(log.messages)), acts[..steps]);
              db.View() == s.tables && log.messages == s.log
      ensures steps == 0 ==> db.View() == old(db.View())
      ensures steps >= 1 ==> Acceptable(old(db.View()), p, req.merchant, key, req.amount, token)
                             && p in db.payments && db.payments == old(db.payments)[p := db.payments[p]]
                             && db.payments[p].merchant == req.merchant && db.payments[p].key == key
      ensures r == BadAmount <==> req.amount <= 0
      ensures r.Accepted? ==> r == Accepted(p, if approved then Created else Failed) && p in db.payments
                              && db.payments[p].status == r.status && (steps == 3 <==> !lost) && steps >= 2
      ensures !r.Accepted? ==> steps <= 1
      ensures faults == {} && Acceptable(old(db.View()), p, req.merchant, key, req.amount, token) ==>
                && r == Accepted(p, if approved then Created else Failed) && p in db.payments
                && db.payments[p] == Payment(req.merchant, req.amount, req.currency, r.status, key, db.clock, None)
    {
      GatewaySteps(db.clock, db.View(), log.messages, p, req, key, token, approved);
      InsertIffAcceptable(db.View(), p, NewRow(req, key, db.clock), token);
      hide Exec, Apply, KeyTaken;
      if req.amount <= 0 {
        return BadAmount, 0;
      }
      var ok, stored := StorePayment(p, req, key, token, faults);
      if !ok {
        return ServerError, if stored then 1 else 0;
      }
      var status := if approved then Created else Failed;
      if MarkPayment in faults {
        return ServerError, 1;
      }
      db.payments := db.payments[p := db.payments[p].(status := status)];
      ok := log.Publish(Event(status, Some(p), {}, req.merchant, req.amount, req.currency), lost);
      return Accepted(p, status), if ok then 3 else 2;
    }
  }

  /** What the gateway's three steps do one after the other. */
  lemma GatewaySteps(now: nat, t: Tables, log: seq<Event>, p: PaymentId, req: Request, key: Key, token: Token,
                     approved: bool)
    ensures var acts := [Insert(p, req, key, token), Mark(p, approved), Publish(p)];
            var s0 := State(now, t, map[], log);
            var t1 := InsertPayment(t, p, NewRow(req, key, now), token);
            && Exec(s0, acts[..0]) == s0
            && (t1.Some? ==> t1.value == t.(payments := t.payments[p := NewRow(req, key, now)]))
            && (t1.Some? ==>
                  var status := if approved then Created else Failed;
                  var t2 := t1.value.(payments := t1.value.payments[p := t1.value.payments[p].(status := status)]);
                  && Exec(s0, acts[..1]).tables == t1.value && Exec(s0, acts[..1]).log == log
                  && Exec(s0, acts[..2]).tables == t2 && Exec(s0, acts[..2]).log == log
                  && Exec(s0, acts[..3]).tables == t2
                  && Exec(s0, acts[..3]).log
                     == log + [Event(status, Some(p), {}, req.merchant, req.amount, req.currency)])
  {
    var acts := [Insert(p, req, key, token), Mark(p, approved), Publish(p)];
    var s0 := State(now, t, map[], log);
    assert acts[..1][..0] == acts[..0] && acts[..2][..1] == acts[..1] && acts[..3][..2] == acts[..2];
    assert Exec(s0, acts[..1]) == Apply(s0, acts[0]);
    assert Exec(s0, acts[..2]) == Apply(Apply(s0, acts[0]), acts[1]);
    assert Exec(s0, acts[..3]) == Apply(Apply(Apply(s0, acts[0]), acts[1]), acts[2]);
  }

  // ----- the grouping loop -----

  lemma AllReady(t: Tables, now: nat)
    ensures forall k ::
              Group(t, now, k)
              == set p | p in t.payments && KeyOf(t.payments[p]) == k && Ready(t.merchants, now, t.payments[p])
    ensures forall p :: p in t.payments && Ready(t.merchants, now, t.payments[p]) ==>
              KeyOf(t.payments[p]) in DueKeys(t, now)
  {
    forall k
      ensures Group(t, now, k)
              == set p | p in t.payments && KeyOf(t.payments[p]) == k && Ready(t.merchants, now, t.payments[p])
    {
      GroupIsReady(t, now, k);
    }
    forall p | p in t.payments && Ready(t.merchants, now, t.payments[p])
      ensures KeyOf(t.payments[p]) in DueKeys(t, now)
    {
      GroupIsReady(t, now, KeyOf(t.payments[p]));
    }
  }

  /** The due payments of group k among those already read. */
  ghost function SeenOf(t: Tables, now: nat, seen: set<PaymentId>, k: GroupKey): set<PaymentId> {
    seen * Group(t, now, k)
  }

  ghost predicate Grouped(t: Tables, now: nat, seen: set<PaymentId>, rows: Rows) {
    && (forall k :: k in rows <==> SeenOf(t, now, seen, k) != {})
    && (forall k :: k in rows ==> rows[k] == (Total(t.payments, SeenOf(t, now, seen, k)), SeenOf(t, now, seen, k)))
  }

  lemma NothingGrouped(t: Tables, now: nat)
    ensures Grouped(t, now, {}, map[])
  {
  }

  lemma AddRow(t: Tables, now: nat, seen: set<PaymentId>, rows: Rows, p: PaymentId)
    requires Grouped(t, now, seen, rows) && p in t.payments && p !in seen && DueRow(t.merchants, now, t.payments[p])
    ensures var k := KeyOf(t.payments[p]);
            var before := if k in rows then rows[k] else (0, {});
            Grouped(t, now, seen + {p}, rows[k := (before.0 + t.payments[p].amount, before.1 + {p})])
  {
    var k := KeyOf(t.payments[p]);
    forall j
      ensures SeenOf(t, now, seen + {p}, j) == if j == k then SeenOf(t, now, seen, j) + {p} else SeenOf(t, now, seen, j)
    {
    }
    SumAdd(SeenOf(t, now, seen, k), q => AmountOf(t.payments, q), p);
  }

  lemma SkipRow(t: Tables, now: nat, seen: set<PaymentId>, rows: Rows, p: PaymentId)
    requires Grouped(t, now, seen, rows) && p in t.payments && !DueRow(t.merchants, now, t.payments[p])
    ensures Grouped(t, now, seen + {p}, rows)
  {
    forall j ensures SeenOf(t, now, seen + {p}, j) == SeenOf(t, now, seen, j) { }
  }

  lemma AllGrouped(t: Tables, now: nat, rows: Rows)
    requires Grouped(t, now, t.payments.Keys, rows)
    ensures rows.Keys == DueKeys(t, now)
    ensures forall k :: k in rows ==> rows[k] == (Total(t.payments, Group(t, now, k)), Group(t, now, k))
  {
    forall k ensures SeenOf(t, now, t.payments.Keys, k) == Group(t, now, k) { }
    GroupsPartitionDue(t, now);
  }
}
