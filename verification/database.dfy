/** The database connection the services use: tables updated in place by single statements, inside a
    transaction that can be rolled back. Any statement may fail although no constraint is violated
    (`fault`); after a failure inside a transaction every later statement of it fails too. */
module Store {
  import opened Schema
  import opened Effects

  datatype Statement =
    | BeginTx | CommitTx | CommitAck
    | ReadPayment | MarkPayment | AttachPayments | ReadPending
    | FindPayable | AddPayable | FindBank | AddBank | CheckSystem | AddSystem
    | AddDebit | AddCredit | AddSettlementRow | AddRefundRow | ReadToken | AddPaymentRow

  /** What a handler reports: success, an error, or a clean return without a commit. */
  datatype Outcome = Committed | Errored | Skipped

  datatype Lookup = Found(a: AccountId) | NoRows | QueryFailed

  class Database {
    var clock: nat
    var merchants: map<MerchantId, Schedule>
    var tokens: set<Token>
    var payments: map<PaymentId, Payment>
    var accounts: map<AccountId, Account>
    var settlements: map<SettlementId, Settlement>
    var refunds: map<RefundId, Refund>
    var ledger: seq<Entry>
    var inTx: bool
    var aborted: bool
    var saved: Tables

    constructor (clock: nat, t: Tables)
      ensures View() == t && this.clock == clock && !inTx
    {
      this.clock := clock;
      merchants, tokens, payments, accounts := t.merchants, t.tokens, t.payments, t.accounts;
      settlements, refunds, ledger := t.settlements, t.refunds, t.ledger;
      inTx, aborted, saved := false, false, t;
    }

    function View(): Tables
      reads this
    {
      Tables(merchants, tokens, payments, accounts, settlements, refunds, ledger)
    }

    // ----- transactions -----

    method Begin(fault: bool) returns (ok: bool)
      requires !inTx
      modifies this`inTx, this`aborted, this`saved
      ensures ok == inTx == !fault
      ensures ok ==> !aborted && saved == View()
    {
      if fault { return false; }
      inTx, aborted, saved := true, false, View();
      return true;
    }

    method Restore()
      modifies this
      ensures View() == old(saved) && !inTx && clock == old(clock)
    {
      merchants, tokens, payments, accounts := saved.merchants, saved.tokens, saved.payments, saved.accounts;
      settlements, refunds, ledger := saved.settlements, saved.refunds, saved.ledger;
      inTx := false;
    }

    /** The deferred rollback: without effect once the transaction is over. */
    method Rollback()
      modifies this
      ensures View() == (if old(inTx) then old(saved) else old(View())) && !inTx && clock == old(clock)
    {
      if inTx { Restore(); }
    }

    /** A commit can be refused, and it can happen although its acknowledgement gets lost. */
    method Commit(refused: bool, ackLost: bool) returns (ok: bool)
      requires inTx
      modifies this
      ensures !inTx && clock == old(clock)
      ensures ok == (!old(aborted) && !refused && !ackLost)
      ensures View() == if old(aborted) || refused then old(saved) else old(View())
    {
      if aborted || refused { Restore(); return false; }
      inTx := false;
      return !ackLost;
    }

    // ----- statements -----

    method MerchantOf(p: PaymentId, fault: bool) returns (m: Option<MerchantId>)
      modifies this`aborted
      ensures m == if fault || old(aborted) || p !in payments then None else Some(payments[p].merchant)
      ensures m.Some? ==> !aborted
    {
      if fault || aborted { aborted := true; return None; }
      return if p in payments then Some(payments[p].merchant) else None;
    }

    method SetPayment(p: PaymentId, row: Payment, fault: bool) returns (ok: bool)
      requires p in payments
      modifies this`payments, this`aborted
      ensures ok == (!fault && !old(aborted)) == !aborted
      ensures payments == if ok then old(payments)[p := row] else old(payments)
    {
      if fault || aborted { aborted := true; return false; }
      payments := payments[p := row];
      return true;
    }

    /** UPDATE ... WHERE id = ANY(ids) AND settlement_id IS NULL; the number of rows is |hits|. */
    method AttachUnsettled(ids: set<PaymentId>, s: SettlementId, fault: bool) returns (ok: bool, rows: nat)
      modifies this`payments, this`aborted
      ensures ok == (!fault && !old(aborted)) == !aborted
      ensures payments == if ok then Attach(old(payments), clock, Hits(old(payments), ids), s) else old(payments)
      ensures ok ==> rows == |Hits(old(payments), ids)|
    {
      if fault || aborted { aborted := true; return false, 0; }
      var hits := Hits(payments, ids);
      payments := Attach(payments, clock, hits, s);
      return true, |hits|;
    }

    method LookupAccount(m: MerchantId, kind: AccountType, c: Currency, fault: bool) returns (r: Lookup)
      requires UniqueAccounts(accounts)
      modifies this`aborted
      ensures fault || old(aborted) ==> r == QueryFailed && aborted
      ensures !fault && !old(aborted) ==> !aborted
      ensures !fault && !old(aborted) ==>
                r == if FindAccount(accounts, m, kind, c).Some? then Found(FindAccount(accounts, m, kind, c).value)
                  else NoRows
    {
      if fault || aborted { aborted := true; return QueryFailed; }
      if a :| a in accounts && IsAccount(accounts, a, m, kind, c) {
        return Found(a);
      }
      return NoRows;
    }

    method AccountExists(a: AccountId, fault: bool) returns (r: Option<bool>)
      modifies this`aborted
      ensures fault || old(aborted) ==> r.None? && aborted
      ensures !fault && !old(aborted) ==> r == Some(a in accounts) && !aborted
    {
      if fault || aborted { aborted := true; return None; }
      return Some(a in accounts);
    }

    method AddAccount(a: AccountId, row: Account, fault: bool) returns (ok: bool)
      modifies this`accounts, this`aborted
      ensures ok == (!fault && !old(aborted) && InsertAccount(old(View()), a, row).Some?) == !aborted
      ensures accounts == if ok then old(accounts)[a := row] else old(accounts)
    {
      if fault || aborted || a in accounts || (row.merchant.Some? && row.merchant.value !in merchants)
        || AccountTaken(accounts, row) {
        aborted := true;
        return false;
      }
      accounts := accounts[a := row];
      return true;
    }

    method AddSettlement(s: SettlementId, row: Settlement, fault: bool) returns (ok: bool)
      modifies this`settlements, this`aborted
      ensures ok == (!fault && !old(aborted) && InsertSettlement(old(View()), s, row).Some?) == !aborted
      ensures settlements == if ok then old(settlements)[s := row] else old(settlements)
    {
      if fault || aborted || s in settlements || row.merchant !in merchants { aborted := true; return false; }
      settlements := settlements[s := row];
      return true;
    }

    method AddRefund(r: RefundId, row: Refund, fault: bool) returns (ok: bool)
      modifies this`refunds, this`aborted
      ensures ok == (!fault && !old(aborted) && InsertRefund(old(View()), r, row).Some?) == !aborted
      ensures refunds == if ok then old(refunds)[r := row] else old(refunds)
    {
      if fault || aborted || r in refunds || row.payment !in payments || row.merchant !in merchants {
        aborted := true;
        return false;
      }
      refunds := refunds[r := row];
      return true;
    }

    method AddEntry(e: Entry, fault: bool) returns (ok: bool)
      modifies this`ledger, this`aborted
      ensures ok == (!fault && !old(aborted) && InsertEntry(old(View()), e).Some?) == !aborted
      ensures ledger == if ok then old(ledger) + [e] else old(ledger)
    {
      if fault || aborted || e.account !in accounts || (e.payment.Some? && e.payment.value !in payments)
        || e.amount <= 0 {
        aborted := true;
        return false;
      }
      ledger := ledger + [e];
      return true;
    }

    method AddPayment(p: PaymentId, row: Payment, token: Token, fault: bool) returns (ok: bool)
      modifies this`payments, this`aborted
      ensures ok == (!fault && !old(aborted) && Acceptable(old(View()), p, row.merchant, row.key, row.amount, token))
      ensures ok == !aborted
      ensures payments == if ok then old(payments)[p := row] else old(payments)
    {
      if fault || aborted || p in payments || row.amount <= 0 || row.merchant !in merchants || token !in tokens
         || KeyTaken(payments, row.merchant, row.key) {
        aborted := true;
        return false;
      }
      payments := payments[p := row];
      return true;
    }
  }

  /** The topic: an append-only log. A publish can fail. */
  class EventLog {
    var messages: seq<Event>

    constructor ()
      ensures messages == []
    {
      messages := [];
    }

    method Publish(e: Event, fault: bool) returns (ok: bool)
      modifies this
      ensures ok == !fault
      ensures messages == if ok then old(messages) + [e] else old(messages)
    {
      if fault { return false; }
      messages := messages + [e];
      return true;
    }
  }

  /** All or nothing, whatever fails: the tables are the old ones or the full effect; success means
      the effect; without faults the handler commits exactly when it can; and an error leaves the old
      tables unless only the acknowledgement was lost. */
  ghost predicate AllOrNothing(before: Tables, after: Tables, effect: Option<Tables>, r: Outcome,
                               faults: set<Statement>) {
    && (after == before || effect == Some(after))
    && (r == Committed ==> effect == Some(after))
    && (r == Skipped ==> after == before)
    && (r == Errored && CommitAck !in faults ==> after == before)
    && (faults == {} ==>
          if effect.Some? then r == Committed && after == effect.value
          else r != Committed && after == before)
  }
}
