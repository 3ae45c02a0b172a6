# A model of the payment processor, and what it guarantees

Four services move money by changing the same tables and talking through one event log: the gateway
takes payments, the ledger consumer posts them, the settlement scheduler and consumer pay merchants, the
admin service refunds. Around them stand the gateway's idempotency protocol, a fraud counter in Redis, a
subscription billing worker, and the Kafka consumer loop that decides what is delivered again. This
project models each of these and proves what holds after every run, whatever fails, repeats, crashes or
interleaves.

How it is built:

- `schema.dfy`, `effects.dfy`: the tables with their constraints, and what each handler does to them when
  its transaction commits. `None` means that a statement was rejected or the handler left early.
- `database.dfy`, `services.dfy`: a `Database` class whose statements update the tables in place and may each
  fail, and the handlers written statement by statement over it, with the deferred rollback. They are
  proved all-or-nothing against the effects.
- `pipeline.dfy`, `invariant.dfy`: the pipeline as a step system. A transaction is one step, a statement
  outside a transaction is a step of its own, and any logged event may be delivered at any time, any number
  of times. One invariant is proved for every run.
- `conservation.dfy`, `guarantees.dfy`, `commits.dfy`, `delivery.dfy`, `early.dfy`, `rounds.dfy`: the results about
  the pipeline. `owing.dfy`: what a merchant is owed, and exactly when the balance shows it. `overlap.dfy`,
  `witnesses.dfy`: runs in which the promises listed below fail.
- `idempotency.dfy`, `lock.dfy`, `gateway.dfy`: the protocol as interleaved atomic actions with arbitrary
  changes of the lock table, when the lock does exclude, and the middleware, recorder, stores and handler as
  classes. One call of the middleware is one run of a request's script on the protocol machine, over the
  payments table of `database.dfy`.
- `fraud.dfy`: the velocity counter, its bound, and the service.
- `calendar.dfy`, `billing.dfy`, `worker.dfy`: the two ways periods are added, the billing machine with any
  number of workers, and the worker itself. `scripts.dfy`: what one charge and one tick come to, and the double
  charge. `periods.dfy`: how long the periods are and on which date a subscription stands. `ahead.dfy`: when a
  period is paid for too early. `catchup.dfy`: how many ticks clear a backlog.
- `consumer.dfy`: the fetch, handle, commit loop and what becomes of a message whose handler failed.
- `bridges.dfy`: a poll and its deliveries in the pipeline are the rounds of `rounds.dfy`, and a run of the
  consumer loop is a delivery order of the pipeline.
- `sums.dfy`: sums over finite sets.

Conventions. Identifiers are natural numbers and arrive as inputs, taken as fresh where the code generates
them. Time is a number of seconds. Amounts are unbounded integers, except that a sum read back into 64 bits
fails above the maximum. A fault parameter stands for any error of a statement that no constraint explains.

Where promises and code disagree, the model follows the code:

- "A key prevents charging twice" holds per invoice only. A payment whose renewal fails leaves the subscription
  due, and the next tick drafts a new invoice and charges again for the same period
  (`Scripts.PaidTwiceForOnePeriod`, a run from the start in `Scripts.PaidTwiceFromStart`). A charge renews what
  it took money for if and only if it goes through (`Scripts.RenewedIffGoesThrough`), and over all runs the
  payments are the paid invoices plus those whose renewal never committed (`Billing.ChargesAccounted`).
- "Nothing is renewed in advance" fails exactly when a worker selects a subscription that another worker has
  picked or is charging (`Ahead.PaidAheadIffClash`, a run from the start in `Ahead.AheadFromStart`).
- The Redis lock is presented as what makes retries safe. It is no mutual exclusion (`Idempotency.LockIsNotMutex`);
  it is one exactly as long as nobody stays past it for 30 seconds and nothing else clears it
  (`Lock.TimelyLockExcludes`, `Lock.SecondHolderIffOverdue`). The guarantees of the gateway hold whatever happens
  to it.
- A replay repeats the first response only if that was the 201 (`Idempotency.ReplayFaithful`); a stored 500 comes
  back wrapped (`Idempotency.WrappedReplay`). The 24-hour expiry column of the keys is written by default and
  never read, so keys do not expire in the model either.
- A comment in the ledger service says that the payment status is not touched there; line 69 sets it, for every
  delivery. A status moves back exactly when a `created` event of a processed or refunded payment is delivered
  again (`Guarantees.MovesBackOnlyByRepost`, a run in `Witnesses.RepostMovesBack`), and the balance counts the
  payment again (`Delivery.RepostPaysAgain`).
- "A settlement pays its payments" is false when two polls overlap (`Overlap.OverlapOverpays`). It holds for all
  settlements of a merchant and currency exactly when no delivery of the run lists a payment settled before
  (`Owing.ExactIffNoOverlap`), and then, and only then, the balance is what is owed (`Owing.BalanceIsOwed`).
- "The refund mirrors the capture" holds exactly for payments in `usd` (`Guarantees.RefundMirrorsCapture`, a run
  in which it fails in `Witnesses.RefundMissesCapture`).
- The `payment.settled` notice carries the amount of the whole settlement; it is the payment's own exactly when the
  settlement has no other payment (`Commits.NoticeTellsOwnAmountIff`).
- Merchants on a daily, weekly, biweekly or monthly schedule are all paid after two days (`Early.DueInSeconds`).
- The system account takes entries in every currency, but its row keeps the currency of the first entry ever
  (`Commits.SystemCurrencyIsFirst`, `Commits.SystemCurrencyForGood`).
- The admin settlement can never commit, because no code creates the accounts it writes to
  (`Invariant.AdminSettleRollsBack`).
- The consumer commits only after success, but the next success commits past a failed message
  (`Consumer.HandledLaterIffNotLost`, `Consumer.FailedThenCommitted`, from any start in `Consumer.LostFromStart`).
- The first billing period is added by Go and carries surplus days into the next month; later ones are added
  by PostgreSQL and stop at its end (`Calendar.MonthAdvance`).

## Model

| member | source | states |
|---|---|---|
| `Store.Database.Commit` | services/ledger/service/ledger_service.go:125-127 | a commit keeps all writes or restores the tables at begin; an aborted transaction always restores them; a commit may happen although its acknowledgement is lost |
| `Store.Database.Begin` | services/ledger/service/ledger_service.go:52-55 | a transaction opens with the tables saved, or an error is reported |
| `Store.Database.Rollback` | services/ledger/service/ledger_service.go:56 | the deferred rollback restores the tables at begin, and does nothing once the transaction is over |
| `Store.Database.AttachUnsettled` | services/settlements/service/settlement_service.go:152-158 | the guarded update touches exactly the listed rows without a settlement id and reports how many |
| `Store.Database.AddPayment` | migrations/000001_init.up.sql:54-77 | a payment row is accepted exactly when its id is new, merchant and token are known, the amount is positive and that merchant has no payment under the key; keys of other merchants are no matter |
| `Store.Database.AddAccount` | migrations/000001_init.up.sql:87-94 | an account row is accepted exactly when its id is new and no account has its merchant, type and currency |
| `Store.Database.AddEntry` | migrations/000001_init.up.sql:96-106 | an entry is accepted exactly when account and payment exist and the amount is positive |
| `Store.Database.AddSettlement` | migrations/000004_add_settlements_table.up.sql:1-9 | a settlement row is accepted exactly when its id is new and its merchant exists |
| `Store.Database.AddRefund` | migrations/000003_async_settlements.up.sql:11-19 | a refund row is accepted exactly when its id is new and its payment and merchant exist |
| `Store.Database.LookupAccount` | services/ledger/service/ledger_service.go:76 | finds the one account of that merchant, type and currency, or none; a failure aborts the transaction |
| `Effects.PostShape` | services/ledger/service/ledger_service.go:61-123 | a committed posting makes the row initiated, appends one balanced pair from the system account, opened in the event's currency if there was none, to the merchant's payable account, only adds accounts, and moves nothing else |
| `Effects.SettleShape` | services/settlements/service/settlement_service.go:123-207 | a committed settlement attaches exactly the unsettled targets, at least one, inserts one settlement row and one balanced pair for the event's amount, and moves nothing else |
| `Effects.SettlesListed` | services/settlements/service/settlement_service.go:131-158 | a committed settlement processes a payment, now and under the new id, exactly when the event names it, in a list or alone, and no settlement had it |
| `Effects.RefundShape` | services/admin_api/service/admin_service.go:294-350 | a committed refund is of the full amount of a processed payment, with one pair on the merchant's `usd` payable account and the system account |
| `Effects.AdminSettleShape` | services/admin_api/service/admin_service.go:162-205 | what the admin settlement would commit: one row in `USD` over all pending payments of the merchant, and a pair in INR on accounts named after it |
| `Effects.GroupIsReady` | services/settlements/service/settlement_service.go:47-62 | a group of the poll holds exactly the initiated, unsettled payments of its merchant and currency that have waited long enough: not at all, 3600, 43200, 86400 or 172800 seconds |
| `Services.FindOrCreate` | services/ledger/service/ledger_service.go:74-84 | find-or-create returns the one account of that merchant, type and currency, or aborts the transaction |
| `Services.EnsureSystemAccount` | services/ledger/service/ledger_service.go:92-104 | the system account exists afterwards; a new one is in the currency of the event, an old one is left alone |
| `Services.AddPair` | services/ledger/service/ledger_service.go:106-123 | both entries are inserted or the transaction is aborted |
| `Services.LedgerService.HandlePaymentEvent` | services/ledger/service/ledger_service.go:36-148 | all or nothing with a fault at any statement; other statuses are ignored; exactly an acknowledged commit is followed by one `initiated` notice with the event's amount and currency, which may be lost without anybody noticing |
| `Services.LedgerService.Record` | services/ledger/service/ledger_service.go:61-123 | the statements between begin and commit amount to the posting effect, and fail without faults only if the effect is impossible |
| `Services.SettlementService.HandleSettleEvent` | services/settlements/service/settlement_service.go:110-229 | all or nothing with a fault at any statement, including the clean returns without a commit; after an acknowledged commit, and only then, `settled` notices of its payments are sent, each with the amount of the whole event |
| `Services.SettlementService.Notify` | services/settlements/service/settlement_service.go:214-226 | one notice for every payment of the event except those whose publish is lost |
| `Services.SettlementService.Settle` | services/settlements/service/settlement_service.go:129-207 | the statements between begin and commit amount to the settlement effect |
| `Services.SettlementService.Book` | services/settlements/service/settlement_service.go:166-207 | both accounts and both entries, or no commit |
| `Services.SettlementService.QueryDue` | services/settlements/service/settlement_service.go:47-62 | the grouping pass gives one row per merchant and currency with something due, with exactly its initiated, unsettled payments that have waited 0, 1, 12, 24 or 48 hours as the schedule says, and their sum |
| `Services.SettlementService.PollAndDispatchSettlements` | services/settlements/service/settlement_service.go:43-98 | publishes events of at most a hundred distinct due groups, each with exactly the payments that have waited long enough; without faults a hundred of them, or all |
| `Services.SettlementService.Dispatch` | services/settlements/service/settlement_service.go:70-97 | the publish loop sends one event for each row taken, except unreadable rows, sums over 64 bits and failed publishes |
| `Services.AdminService.IssueRefund` | services/admin_api/service/admin_service.go:284-353 | all or nothing with a fault at any statement |
| `Services.AdminService.Refunding` | services/admin_api/service/admin_service.go:294-350 | the statements between begin and commit amount to the refund effect |
| `Services.AdminService.UpdateMerchantSettings` | services/admin_api/service/admin_service.go:142-153 | exactly this merchant's schedule becomes the new one; switching to instant also tries the admin settlement: without faults it commits if it can, without the account it debits it cannot, and its outcome is ignored |
| `Services.AdminService.SettlePendingPayments` | services/admin_api/service/admin_service.go:155-208 | all or nothing with a fault at any statement |
| `Services.AdminService.SettlingPending` | services/admin_api/service/admin_service.go:162-205 | the statements between begin and commit amount to the admin settlement effect, which includes the 64-bit limit of the sum |
| `Services.AdminService.QueryPending` | services/admin_api/service/admin_service.go:162-168 | the pass over the payments gives exactly the initiated, unsettled payments of the merchant and their sum |
| `Services.PaymentService.StorePayment` | services/gateway/service/payment_service.go:43-69 | the insert commits or leaves the tables alone; an error after a commit means only a lost acknowledgement; an acceptable payment is stored when nothing fails |
| `Services.PaymentService.ProcessPayment` | services/gateway/service/payment_service.go:35-108 | whatever fails, what is written is a prefix of insert, status, event; a client is told accepted only after the first two, with the status of the row; without faults every payment that meets the schema, whatever keys other merchants used, is accepted and its row is the request's |
| `Invariant.PostStep` | services/ledger/service/ledger_service.go:36-127 | a posting of any logged event keeps the invariant and undoes nothing |
| `Invariant.SettleStep` | services/settlements/service/settlement_service.go:110-211 | a settle delivery of any logged event keeps the invariant and undoes nothing |
| `Invariant.RefundStep` | services/admin_api/service/admin_service.go:284-353 | a refund keeps the invariant and undoes nothing |
| `Invariant.PollStep` | services/settlements/service/settlement_service.go:43-98 | every settle event is published in agreement with its rows: distinct ids, their exact sum, one merchant and currency, each initiated and unsettled |
| `Invariant.Always` | services/settlements/service/settlement_service.go:110-211 | after every run: paired ledger, entries agreeing with accounts and payments, events agreeing with rows, settlements with payments attached, at most one account per merchant, type and currency |
| `Invariant.NothingUndone` | services/settlements/service/settlement_service.go:152 | settlement ids, settlement rows, refunds, entries, accounts, identities and amounts written in a run stay in every continuation |
| `Invariant.AdminSettleRollsBack` | services/admin_api/service/admin_service.go:155-208 | in every reachable state the admin settlement cannot commit |
| `Invariant.SettleAttaches` | services/settlements/service/settlement_service.go:129-158 | a committed settlement gets exactly the rows the update hit; its amount is their sum plus the sum of the event's other payments |
| `Conservation.MoneyConserved` | services/ledger/service/ledger_service.go:69-123 | after every run, for every merchant and currency: payable balance = amounts times committed postings - settlements - refunds recorded in that currency |
| `Owing.BalanceIsOwed` | services/settlements/service/settlement_service.go:129-209 | in a run that posts no payment twice, the payable balance is the unsettled initiated payments minus refunds if and only if no settle delivery of the run overlapped an earlier settlement |
| `Owing.ExactIffNoOverlap` | services/settlements/service/settlement_service.go:134-158 | the settlements of a merchant and currency pay exactly their payments if and only if no committed delivery of the run listed a payment settled before |
| `Owing.SettledExactly` | services/settlements/service/settlement_service.go:131-158 | the settled total is the sum of the settled payments if and only if every settlement is exact |
| `Owing.PostingsCountPosts` | services/ledger/service/ledger_service.go:106-123 | the ledger holds one capture of a payment for each step of the run that posted it |
| `Guarantees.BooksBalance` | services/ledger/service/ledger_service.go:106-123 | signed entries of every currency sum to zero after every run |
| `Guarantees.GroupIsOnePair` | services/settlements/service/settlement_service.go:187-207 | every transaction group is exactly one debit and one credit of equal amount and currency |
| `Guarantees.EventsAgree` | services/settlements/service/settlement_service.go:48-88 | at every moment of every run a logged `created` event has its row's merchant, amount and currency, and a logged settle event has at least one payment, their exact sum, one merchant and currency, each row initiated or already settled |
| `Guarantees.SettlementCovers` | services/settlements/service/settlement_service.go:131-158 | every settlement has payments attached, all of its merchant and currency, and is worth no less than they are |
| `Guarantees.SettlementExcess` | services/settlements/service/settlement_service.go:134-158 | a settlement exceeds its payments by exactly the event's payments settled earlier; equality if and only if there were none |
| `Guarantees.SettledForGood` | services/settlements/service/settlement_service.go:152 | a settlement id is written once, under any redelivery |
| `Guarantees.ProcessedAtMostOnce` | services/settlements/service/settlement_service.go:152-158 | at most one step of a run takes a payment to processed, even with repeated `created` events in between |
| `Guarantees.RefundedAtMostOnce` | services/admin_api/service/admin_service.go:298-316 | a payment has at most one refund, of its full amount, and only after a settlement |
| `Guarantees.RefundMirrorsCapture` | services/admin_api/service/admin_service.go:325-350 | the refund debits the amount of the capture and credits the system account; the debit is on the account the capture credited if and only if the payment is in `usd` |
| `Witnesses.RefundMissesCapture` | services/admin_api/service/admin_service.go:325-350 | a run after which the refund of a settled payment in another currency debits an account its capture never credited |
| `Guarantees.MovesBackOnlyByRepost` | services/ledger/service/ledger_service.go:42-69 | a step moves a status back if and only if it delivers to the ledger a `created` event of a processed or refunded payment with unused ids; there was a posting before |
| `Witnesses.RepostMovesBack` | services/ledger/service/ledger_service.go:42-69 | a run that takes a payment to processed, and the second delivery that takes it back and raises the balance again |
| `Guarantees.ForwardWhenPostedOnce` | services/ledger/service/ledger_service.go:42-69 | with at most one posting a status only moves forward, and there is a capture exactly from initiated on |
| `Guarantees.FailedForGood` | services/gateway/service/payment_service.go:75-94 | a failed payment stays failed, unsettled and without ledger entries |
| `Guarantees.AccountFoundAgain` | services/settlements/service/settlement_service.go:166-185 | at most one account per merchant, type and currency, and every later lookup finds the same one |
| `Guarantees.PostCommitsWheneverDelivered` | services/ledger/service/ledger_service.go:42-127 | in every reachable state a delivery to the ledger changes something if and only if it is of a logged `created` event with unused ids: nothing filters a second one |
| `Commits.InsertCommitsIff` | migrations/000001_init.up.sql:54-77 | in any state a payment is stored exactly when its id is new, merchant and card are known, the amount is positive and the merchant has not used the key; the row is the request's |
| `Commits.SettleCommitsIff` | services/settlements/service/settlement_service.go:110-211 | in every reachable state a delivery to the settlement consumer commits exactly when its event is a settle event, lists at least one payment without a settlement, and its ids are unused |
| `Commits.SettleIff` | services/settlements/service/settlement_service.go:129-207 | the same for any tables and either form of the event: a list of payments, or a single one |
| `Commits.RefundCommitsIff` | services/admin_api/service/admin_service.go:294-350 | after any run a refund commits exactly for a processed payment of that merchant, in full, with a new id, when the merchant has a `usd` payable account |
| `Commits.SystemCurrencyIsFirst` | services/ledger/service/ledger_service.go:92-104 | in every run the system account exists exactly from the first ledger entry on, in its currency |
| `Commits.SystemCurrencyForGood` | services/ledger/service/ledger_service.go:92-104 | and its row never changes again |
| `Commits.NoticeTellsOwnAmountIff` | services/settlements/service/settlement_service.go:214-226 | the amount in the settled notice of a payment is at least its own, and equal exactly when the event lists no other payment |
| `Guarantees.EntryInAccountCurrency` | services/ledger/service/ledger_service.go:115-123 | every entry on a merchant's account has that account's currency |
| `Delivery.RepeatsChangeNothing` | services/settlements/service/settlement_service.go:152-158 | at-least-once delivery of settle events refines exactly-once: dropping every delivery after the first committed one leaves the whole state unchanged |
| `Delivery.NoRepeatsLeft` | services/settlements/service/settlement_service.go:152-158 | the shortened run delivers no settled event again |
| `Delivery.SettledByOneStep` | services/settlements/service/settlement_service.go:156-158 | no event is settled by two steps of a run |
| `Delivery.RepostPaysAgain` | services/ledger/service/ledger_service.go:106-123 | every delivery of a `created` event with unused ids, first or repeated, adds the amount to the payable balance |
| `Early.EventWasDue` | services/settlements/service/settlement_service.go:51-58 | every payment in a logged settle event was initiated, unsettled and past its waiting time when an earlier poll published it |
| `Early.OnlySettlesAttach` | services/settlements/service/settlement_service.go:152 | the step that gives a payment its settlement is a committed delivery of an event that lists it |
| `Early.NeverPaidEarly` | services/settlements/service/settlement_service.go:51-58 | every settled payment had, at an earlier poll, waited long enough for the schedule then in force |
| `Early.SettledAfterDelay` | services/settlements/service/settlement_service.go:51-58 | a payment posted once is settled no earlier than 1, 12, 24 or 48 hours after its posting, as the schedule in force at its poll says |
| `Early.DueInSeconds` | services/settlements/service/settlement_service.go:51-58 | a payment posted once and unsettled is found by a poll exactly when 3600, 43200, 86400 or 172800 seconds have passed since the posting for the schedules of 1, 12, 24 hours and the four old ones, and at once for instant |
| `Rounds.GroupsPartitionDue` | services/settlements/service/settlement_service.go:47-62 | the groups are disjoint, cover exactly the due payments, and their sums add up to the direct sum |
| `Rounds.HandleAllLooks` | services/settlements/service/settlement_service.go:110-211 | handling any distinct due groups of one poll, in any order, commits every time, with a result that does not mention the order |
| `Rounds.OrderDoesNotMatter` | services/settlements/service/settlement_service.go:110-211 | two orders give equal tables and the same multiset of entries |
| `Rounds.OnePollSettlesAll` | services/settlements/service/settlement_service.go:47-97 | with at most a hundred due groups and no fault, one poll settles every due payment, for exactly the total due |
| `Rounds.RoundShrinks` | services/settlements/service/settlement_service.go:59-61 | a failure-free round takes out min(100, G) groups whichever are chosen, and loses no due payment |
| `Rounds.DrainBound` | services/settlements/service/settlement_service.go:59-97 | after ceil(G/100) failure-free rounds everything that was due is settled |
| `Rounds.ReachableSound` | services/settlements/service/settlement_service.go:110-211 | every reachable state meets what the round results require |
| `Bridges.RunIsHandleAll` | services/settlements/service/settlement_service.go:43-211 | in the pipeline a poll followed by deliveries of its events, in any order and with any waiting in between, is the round computation on the tables |
| `Bridges.ConsumerRunsArePipelineRuns` | internal/kafka/consumer.go:26-53 | what a consumer run delivers is a run of the pipeline, keeps the invariant, and gives the same state when repeats are dropped |
| `Overlap.OverlapOverpays` | services/settlements/service/settlement_service.go:134-152 | a reachable state in which a settlement is worth more than its payments |
| `Idempotency.Always` | services/gateway/middleware/idempotency.go:50-103 | after every interleaving of any number of requests, with lock expiry, foreign releases, panics and crashes: served requests, records, payments and replies agree; no part of the invariant mentions the lock |
| `Idempotency.Later` | services/gateway/service/idempotency_service.go:82-95 | completed records, payments, replies and the fact of being served stay in every continuation |
| `Idempotency.AtMostOnce` | services/gateway/service/idempotency_service.go:72-79 | per merchant and key at most one request ever enters the handler and at most one payment exists |
| `Idempotency.ConstraintNeverNeeded` | migrations/000001_init.up.sql:76 | the UNIQUE constraint on payments never stops a request in the handler: the pending insert already did |
| `Idempotency.ReplaysAgree` | services/gateway/middleware/idempotency.go:57-68 | a completed record never changes and every replay, whenever it happens, is that record |
| `Idempotency.Every201NamesThePayment` | services/gateway/middleware/idempotency.go:86-103 | every 201 of a merchant and key, fresh or replayed, names the same existing payment of that merchant and key |
| `Idempotency.ReplayFaithful` | services/gateway/middleware/idempotency.go:95-103 | a replay has the first response's code, and its body if and only if that code was 201; errors come back wrapped |
| `Idempotency.WrappedReplay` | services/gateway/middleware/idempotency.go:95-103 | a run in which the first response is a 500 and the retry gets it wrapped as JSON |
| `Idempotency.AbandonedForGood` | services/gateway/middleware/idempotency.go:57-68 | a record in progress without a request in the handler stays in progress for ever |
| `Idempotency.LockIsNotMutex` | services/gateway/service/idempotency_service.go:26-36 | on every key two requests can be past the lock at once and one release deletes the other's lock; the pending insert still serves only one |
| `Lock.TimelyLockExcludes` | services/gateway/service/idempotency_service.go:26-36 | in any interleaving in which nobody was past the lock for 30 seconds and only requests touch the entries, at most one request per merchant and key is past it, and the entry is its own, until 30 seconds after it |
| `Lock.SecondHolderIffNotHeld` | services/gateway/service/idempotency_service.go:26-30 | in any state a second request gets past the lock beside the first if and only if no live entry is there |
| `Lock.SecondHolderIffOverdue` | services/gateway/service/idempotency_service.go:26-36 | after such a run a second request gets past the lock if and only if the first has been past it for 30 seconds |
| `Gateway.ResponseRecorder.WriteHeader` | services/gateway/middleware/idempotency.go:19-22 | the recorder keeps agreeing with what the client got exactly when the header is the first one or repeats it |
| `Gateway.ResponseRecorder.Write` | services/gateway/middleware/idempotency.go:24-27 | every written piece is recorded and sent, and the two keep agreeing |
| `Gateway.IdempotencyService.AcquireLock` | services/gateway/service/idempotency_service.go:26-30 | acquired exactly when no live lock is there and the answer arrives; lives 30 seconds |
| `Gateway.IdempotencyService.CreatePendingRecord` | services/gateway/service/idempotency_service.go:72-79 | inserts only when there is no record; an error without a fault means there was one, or that the answer was lost |
| `Gateway.IdempotencyService.CompleteRecord` | services/gateway/service/idempotency_service.go:82-95 | an existing record becomes the recorded code and normalised body |
| `Gateway.PaymentHandler.CreatePayment` | services/gateway/handler/payment_handler.go:19-43 | response and payments table agree: 401 exactly without a merchant, 400 exactly for a malformed body, a 201 only with a new payment of this merchant and key, a 500 with one when only the acknowledgement or the status update failed; a panic sends nothing |
| `Gateway.PaymentHandler.Process` | services/gateway/handler/payment_handler.go:31-43 | from the call of the payment service on: 201 or 500 in agreement with the payments table, and a panic before the answer leaves what was stored |
| `Gateway.Middleware.Served` | services/gateway/middleware/idempotency.go:86-103 | handler behind the recorder and completion are the serve, mark and finish steps of the machine, or serve and panic |
| `Gateway.Middleware.Locked` | services/gateway/middleware/idempotency.go:79-103 | from the pending insert on, whatever fails or panics, the stores and the response follow the machine |
| `Gateway.Middleware.Keyed` | services/gateway/middleware/idempotency.go:50-103 | a POST with key and merchant is one run of its script: refused, replayed, served, or cut short by a panic; the client of a recorded key gets 409 or the recorded response, that of a locked one 409 |
| `Gateway.Middleware.Unrecorded` | services/gateway/middleware/idempotency.go:71-103 | a key without a record: 409 while somebody holds its lock, and 201 with the payment when nothing fails and the schema accepts it |
| `Gateway.Middleware.Guarded` | services/gateway/middleware/idempotency.go:71-103 | lock, pending insert, handler, completion and release are the corresponding machine steps, whatever fails; the deferred release also runs on a panic |
| `Gateway.Middleware.ServeHTTP` | services/gateway/middleware/idempotency.go:30-106 | stores, payments and reply after one call, panics included, are those of the request's script on the protocol machine; a request without POST is passed on untouched, one without key or merchant is refused; a recorded key is replayed or 409, a locked one 409; without faults every payment the schema accepts is answered 201, whatever keys other merchants used |
| `Gateway.FirstCallPays` | services/gateway/middleware/idempotency.go:50-103 | a call without faults on a new key stores one payment, answers with it, records that answer and frees the lock |
| `Gateway.PaidReply` | services/gateway/middleware/idempotency.go:50-103 | what the client of such a call is told: 201 with the payment |
| `Gateway.RetryReplays` | services/gateway/middleware/idempotency.go:50-103 | after such a call any retry, whatever would fail after the record is read, changes nothing and replays that payment |
| `Fraud.Always` | services/fraud/service/fraud_service.go:50-58 | in every run each increment is placed in one life of the counter key, in order, and lives are at least 60 seconds long |
| `Fraud.AlertFromTheFourthOn` | services/fraud/service/fraud_service.go:60-77 | a score exceeds 80, and then is 90, if and only if its increment was answered and at least three others came before it in its window |
| `Fraud.VelocityBound` | services/fraud/service/fraud_service.go:50-66 | in any half-open 60-second interval a token gets at most five scores below 90 from answered increments, even if expirations come late or never |
| `Fraud.VelocityBoundIsSharp` | services/fraud/service/fraud_service.go:50-66 | a run in which a token gets five such scores in 60 seconds |
| `Fraud.FraudService.SimulateFraudCheck` | services/fraud/service/fraud_service.go:85-92 | the score is the draw below 50, plus 30 above an amount of 100000, and so below the alert threshold |
| `Fraud.FraudService.CountAttempt` | services/fraud/service/fraud_service.go:50-58 | one increment on the stored key, an expiration only for a first attempt that was answered, and the same score as on the machine |
| `Fraud.FraudService.Increment` | services/fraud/service/fraud_service.go:54 | the stored key counts one more while it lives and starts again at one otherwise |
| `Fraud.FraudService.SetExpiry` | services/fraud/service/fraud_service.go:55-58 | a live key gets the 60-second deadline, any other stays as it is |
| `Fraud.FraudService.HandlePaymentEvent` | services/fraud/service/fraud_service.go:36-83 | one delivery is one increment and at most one expiration; the stored score and the alert are those of that increment, with an alert exactly from the fourth attempt on; other statuses are ignored |
| `Calendar.CountsDays` | services/subscriptions/worker/billing_worker.go:127-132 | the day count used below goes up by one, and the clock by 86400 seconds, from each calendar day to the next |
| `Calendar.GregorianYears` | services/subscriptions/worker/billing_worker.go:127-132 | the days before a year in closed form: a leap day every fourth year, not every hundredth, but every four hundredth |
| `Calendar.MonthAdvance` | services/subscriptions/service/subscription_service.go:48-52 | Go's month has the length of the month it starts in; PostgreSQL's has 28 days or more and is the same if and only if the next month has that day |
| `Calendar.YearAdvance` | services/subscriptions/worker/billing_worker.go:127-132 | both years have 365 or 366 days and differ exactly on 29 February |
| `Calendar.PlusIsOnePeriodLater` | services/subscriptions/worker/billing_worker.go:127-132 | PostgreSQL's addition is the one stamp in the month 1 or 12 later, at the same time, on the same day or the last one if the month is too short |
| `Calendar.YearAfter` | services/subscriptions/worker/billing_worker.go:127-132 | after n yearly renewals the year is n later and month, day and time are kept, except that 29 February becomes the 28th for good |
| `Calendar.GoYear` | services/subscriptions/service/subscription_service.go:48-52 | the first year, as Go adds it, keeps month, day and time, except that 29 February becomes 1 March |
| `Calendar.PlusTimesAdvances` | services/subscriptions/worker/billing_worker.go:127-132 | n renewals move the end by at least 28 n and at most 366 n days |
| `Calendar.BillingDayOnlyShrinks` | services/subscriptions/worker/billing_worker.go:127-132 | renewals never move the billing day to a later day of the month, nor before the 28th |
| `Calendar.BillingDayKept` | services/subscriptions/worker/billing_worker.go:127-132 | a monthly subscription keeps its billing day through all renewals if and only if it is at most the 28th |
| `Billing.NothingUndone` | services/subscriptions/worker/billing_worker.go:106-134 | ends never move back, histories only grow, paid and uncollectible invoices never change |
| `Billing.PeriodsFollowPaidInvoices` | services/subscriptions/worker/billing_worker.go:118-134 | in every run, with any number of workers, periods meet without gap or overlap and the end is the first end renewed once per paid invoice |
| `Periods.PeriodLengths` | services/subscriptions/worker/billing_worker.go:127-132 | in every run each period of a yearly subscription has 365 or 366 days and each of a monthly one 28 to 31, the first included |
| `Periods.YearlyEnd` | services/subscriptions/worker/billing_worker.go:118-132 | a yearly subscription with n paid invoices ends on its starting date n + 1 years on; started on 29 February, on 1 March |
| `Periods.MonthlyEnd` | services/subscriptions/worker/billing_worker.go:118-132 | a monthly one started by the 28th ends on that day of the month, n + 1 months on |
| `Billing.PaidByItsOwnPayment` | services/subscriptions/worker/billing_worker.go:114-134 | every paid invoice has a payment of its own, taken under its key for the amount of its subscription |
| `Billing.ChargesAccounted` | services/subscriptions/worker/billing_worker.go:102-134 | over all runs the payments of a subscription are its paid invoices plus the payments that renewed nothing, at most one per invoice, each for its amount; they match its renewals if and only if there are none of the second kind |
| `Billing.UnrenewedUntilExtended` | services/subscriptions/worker/billing_worker.go:118-134 | a payment is of the second kind exactly as long as no step of the run has committed the renewal of its invoice |
| `Scripts.RenewedIffGoesThrough` | services/subscriptions/worker/billing_worker.go:71-134 | a charge that takes a payment pays its invoice and renews the subscription if and only if it goes through; otherwise the subscription stays due, or past due after a refusal |
| `Scripts.TickRenewedIff` | services/subscriptions/worker/billing_worker.go:44-134 | the same for a whole tick with one due subscription |
| `Scripts.PaidTwiceForOnePeriod` | services/subscriptions/worker/billing_worker.go:102-134 | whenever one subscription is due: a tick that takes its payment and fails to renew it, and the next tick, end with two payments, one paid invoice and one renewal of one month or year |
| `Scripts.PaidTwiceFromStart` | services/subscriptions/worker/billing_worker.go:102-134 | such a run from an empty database: two payments for a history of one renewal |
| `Billing.PastDueForGood` | services/subscriptions/worker/billing_worker.go:108-113 | past_due is never left and such a subscription is never selected again |
| `CatchUp.TicksCatchUp` | services/subscriptions/worker/billing_worker.go:44-69 | with W renewals to make in all and b at most for one subscription, W / 100 + b ticks without faults at one time leave nothing due, whichever hundred each tick takes |
| `CatchUp.TickIsFine` | services/subscriptions/worker/billing_worker.go:44-69 | a tick of the worker in which every charge goes through renews each selected row once and nothing else |
| `CatchUp.TickProgress` | services/subscriptions/worker/billing_worker.go:44-69 | each such tick makes a hundred of the renewals to be made, or brings every subscription one renewal nearer |
| `CatchUp.CatchUpEnds` | services/subscriptions/worker/billing_worker.go:127-132 | a due subscription stops being due after exactly its backlog of renewals, at most one more than the 28-day spans it is behind |
| `CatchUp.BehindByPeriods` | services/subscriptions/worker/billing_worker.go:127-132 | a subscription still due after n renewals was at least 28 n days behind |
| `Ahead.NeverAheadOfTime` | services/subscriptions/worker/billing_worker.go:44-69 | in every run in which no worker selects a given subscription while another has picked or is charging it, all its periods but the current one have ended |
| `Ahead.PaidAheadIffClash` | services/subscriptions/worker/billing_worker.go:47-69 | after selecting a subscription whose renewed end lies ahead, some continuation without further clashes pays ahead if and only if another worker had it picked or was charging it |
| `Ahead.ClashPaysAhead` | services/subscriptions/worker/billing_worker.go:47-69 | from every reachable state with such a clash, the continuation that pays ahead |
| `Ahead.AheadFromStart` | services/subscriptions/worker/billing_worker.go:47-51 | such a run from an empty database with two workers |
| `Scripts.ChargeRenews` | services/subscriptions/worker/billing_worker.go:71-134 | a charge that goes through pays its invoice by the new payment and renews the subscription by exactly one month or year; no other row changes |
| `Scripts.ChargeGivesUp` | services/subscriptions/worker/billing_worker.go:108-113 | a refused or unanswered charge moves no period; invoice uncollectible, subscription past due, although a payment may exist |
| `Worker.BillingWorker.QueryDue` | services/subscriptions/worker/billing_worker.go:45-51 | a hundred distinct active subscriptions whose period has ended, or all of them |
| `Worker.BillingWorker.ChargeSubscription` | services/subscriptions/worker/billing_worker.go:71-137 | whatever fails, the tables are those of the charge's script on the billing machine; the subscription moves on by exactly one month or year if the charge goes through, and not at all otherwise; a failing begin panics |
| `Worker.BillingWorker.ProcessDueSubscriptions` | services/subscriptions/worker/billing_worker.go:44-69 | one tick is one selection followed by the scripts of its rows in order, up to a panic |
| `Consumer.Always` | internal/kafka/consumer.go:26-53 | only messages of the log are delivered, and the committed offset never moves back or passes the reader |
| `Consumer.LostForGood` | internal/kafka/consumer.go:42-50 | a message behind the reader and behind the restart point is never handled again |
| `Consumer.HandledLaterIffNotLost` | internal/kafka/consumer.go:42-50 | a message can still be handled if and only if it is ahead of the reader or at or after a committed offset |
| `Consumer.FailedThenCommitted` | internal/kafka/consumer.go:42-50 | until the next restart a failed message that a restart would bring back becomes lost exactly when any later message is committed |
| `Consumer.LostFromStart` | internal/kafka/consumer.go:42-50 | from any start: two messages, the first fails and the second is committed, and the first is never handled again |
| `Consumer.CommittedStaysAway` | internal/kafka/consumer.go:42-50 | a message whose offset was committed is never handled again, whatever comes then, restarts included |
| `Consumer.HandledOnceWhenCommitted` | internal/kafka/consumer.go:26-53 | the same over whole runs from the start |
| `Consumer.UncommittedComesBack` | internal/kafka/consumer.go:42-50 | a message handled without its offset committed is handled again after a restart |
| `Consumer.OneTurn` | internal/kafka/consumer.go:26-53 | one turn passes the message over, keeps the handler's word, and commits the next offset exactly on success |
| `Consumer.NothingPassedOver` | internal/kafka/consumer.go:26-53 | every message is delivered before the reader is past it, unless a restart comes before the first commit |
| `Consumer.EarlyRestartPassesOver` | internal/kafka/consumer.go:19 | a restart before the first commit passes over unread messages for good |
| `Consumer.Reader.Consume` | internal/kafka/consumer.go:26-53 | the loop's offsets and deliveries are those of its turns, up to the cancellation; a newly committed offset is the one after a handled message |

## Left out

- Liveness of the gateway: events are published without waiting for the result and completion errors are ignored, so payments stuck at `created` and keys refused for ever are reachable (`Idempotency.AbandonedForGood`); only safety is stated.
- Isolation anomalies: transactions are serial, so the unlocked status read of the refund is safe here.
- The statements of one pipeline handler do not interleave with those of another: each transaction is one step of the pipeline.
- Gateway.Middleware.ServeHTTP: one clock value serves the whole call, so a lock that expires during the call is a case of the protocol machine only; what the router answers after a panic is not part of this model.
- Time passing during one call: the fraud and billing methods take one clock value per call, too.
- A publish that reaches the topic although its acknowledgement is lost: it counts as a success in `Store.EventLog.Publish`, since all that callers do with the error is log it.
- Column widths and character sets: a value that does not fit counts as a fault.
- JSON: events and bodies are values; a stored body is the parsed document, or the raw text wrapped in an object.
- The order of Kafka partitions and the key of a message: any logged event may be delivered in any order.
- Id generation: ids are inputs, taken as new; the group ids of two transactions never coincide.
- The time zone of the database session and daylight saving: dates are in UTC.
- Status changes of subscriptions by hand: no code but the worker changes them.
- How the billing worker's requests pass the idempotency protocol: each invoice has its own key and at most one payment is assumed per request.
- The vault and its encryption, API-key hashing, webhook signatures and retries: library calls behind simple branches.
- pkg/money: not used by the services.
- Data warehouse, reports, list queries, configuration, routers, nginx and the frontend: plumbing and presentation.
