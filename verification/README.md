# Verified model of the banking core

A Dafny model of the Go banking backend: payments and the double-entry ledger, idempotent creation, standing orders,
the transactional outbox with its broker and consumers, merchant checkout, name matching, IBAN checksums, row locks and
the rate limiter. `dafny verify dfyconfig.toml` checks all of it.

## How the model is built

* **One committed transaction is one step.** `Bank` holds the committed database (accounts with both cached balances,
  the append-only entries, payment orders, the outbox) and a step for each transaction or auto-committed statement.
  A run is any sequence of steps, so it covers any number of workers and every interleaving of their commits.
  `Merchant`, `Occurrences`, `StandingOrders`, `Delivery` and `RowLocks` are machines of the same kind; the first two
  contain `Bank`, and `Occurrences` also `StandingOrders`.
* **Bodies of transactions are methods on an open transaction.** `Transactions.Tx` is the open transaction. Any statement
  may be refused by the server; that poisons the transaction, and a poisoned one can only be rolled back. A business error or an
  empty result does not poison it. `Booking`, `LedgerRepository` and `PaymentSystem` follow the Go statements in order
  and are proved to commit either nothing or the step's specification. `PaymentSystem.Database.ExecTx` adds the ten
  attempts with other workers in between.
* **Calls that span several transactions** (`CreatePayment`, `RunDuePayments`, `CreateIntent`, `Approve`, `Flush`,
  `handleDelivery`) are methods with arbitrary steps of others between their transactions. `Witnesses`,
  `StandingWitness` and the end of `Deliverability` hold concrete runs from the empty system.
* **What each write means.** `Statements`, `DeliveryStatements` and `OccurrenceTerms` state the effect of single writes in
  columns and constants alone, without the definitions from which the machines are built, and `Timing` follows them over
  runs with a clock. The contracts of the calls do the same where they say which rows were taken or inserted.
* **Arithmetic.** Amounts are whole minor units and unbounded. `uuid.New` returns an id not used before. Clocks, SQL faults, the broker,
  crashes and the delivery provider are nondeterministic.

Constraints of the schema that the proofs rely on are part of the steps: unique (owner, idempotency key), unique IBAN,
unique linked order, positive amounts, single-sided entries, `ON DELETE RESTRICT` (backend/postgres/migrations, files
000003, 000005, 000011 and 000016).

## What turned out not to hold

* A committed call may report an error for an order that it booked. The business error is kept in a variable outside the
  transaction body, which no attempt resets: an attempt that records a failure and is then aborted by a serialization
  failure leaves it behind. A call whose commit is acknowledged reports an error for a BOOKED order if and only if an
  earlier attempt had recorded a failure (`PaymentSystem.ReportedError`, `Witnesses.StaleErrorOccurs`). `RunDuePayments`
  misses an order that it booked exactly for this reason or because the answer to the commit was lost
  (`Occurrences.Worker.SettleBatch`), and `Approve` then records nothing.
* A BOOKED merchant intent has a BOOKED order, but not conversely. An intent in PROCESSING can still leave that status if
  and only if some approval of it has a result to record, or has linked an order that is still waiting and needs no
  override; otherwise it stays in PROCESSING for ever, whatever becomes of its order (`Merchant.PendingResolvesIff`). When
  its order is BOOKED already, it can become BOOKED if and only if some approval has the booking in hand
  (`Merchant.LaggingResolvesIff`). It lags after a crash, but also without one, when the order is booked before the
  approval links it (`Witnesses.LagsWithoutCrash`), and after a stale error or a lost answer.
* Every status change of one transaction is a declared transition if and only if it is not an accepted confirmation of
  that order that is to be executed at once: this one takes two declared transitions
  (`BankRuns.OneEdgeUnlessConfirmedAtOnce`).
* `UpdateStandingOrder` has no status guard. The limits are respected in every continuation without a further update if
  and only if the update leaves room, be the row in order before or not: for the next occurrence of an order that becomes ACTIVE, for the last one made of
  an order that becomes PAUSED (`StandingOrders.UpdateHarmlessIffRoom`, `UpdateRevivesCompleted`).
* Materialisation is not certain: a batch of due standing orders goes through if and only if no payment order has the
  owner and key of one of the next occurrences, and only an order that no standing order made can have it, such as one
  that the customer creates under that key (`StandingWitness.OwnOrderBlocks`). Updates and cancellations do not free the
  key: in every later state the standing order stands still and every batch that contains it is rolled back, so that
  `RunDuePayments` stops before it claims anything; only leaving ACTIVE takes the order out of the batches
  (`Occurrences.MaterialisesIffKeysFree`, `OnlyStrangersTakeKeys`, `BlockedForGood`).
* `ReconcileAccount` reads the balance and the entries in two statements. When both can be read it succeeds if and only if the
  account's sum is the same at both (`PaymentSystem.Database.ReconcileAccount`, `BankRuns.DepositBetweenReads`).
* Deposits and withdrawals lock the settlement account first. A mix of transfers, bookings between customers, bookings to
  the settlement account and deposits or withdrawals can deadlock if and only if it has the third and the fourth and
  some customer account has a lower id than the settlement account (`RowLocks.MixDeadlocksIff`).
* No event is lost, but not every event is delivered. An event can still be processed if and only if it is not yet
  published, or a publisher will send a copy, or somebody has a copy to deliver; otherwise it has been dead-lettered and
  is never delivered (`Deliverability.DeliverableIff`). It comes to that because a copy that finds the event leased counts
  as a failed attempt: a consumer dead-letters an event whose other delivery is under way if and only if its copy is at
  the retry limit and finds the lease running (`BuriedIffBusyAtLimit`), and that delivery may fail as well
  (`NeverDeliveredOccurs`).
* The consumer lease excludes a second deliverer if and only if the first one settles in time
  (`ConsumerLease.SecondClaimIffExpired`).
* `end_date` is a DATE column. "Not after the end date" therefore holds by calendar day.

## Model

| member | source | states |
|---|---|---|
| `BankRuns.ExactlyOnceBooking` | backend/internal/payment/payments.go:356-461 | in every reachable state: BOOKED iff the ledger transaction is set iff exactly one debit and one equal credit on two different accounts carry the order's id, which are also all entries of that transaction; otherwise the order has no entries |
| `BankRuns.EveryAccountReconciles` | backend/internal/platform/database/ledger_repository.go:362-397 | in every reachable state balance, available balance and credits minus debits agree for every account, and no entry has lost its account |
| `BankRuns.ConservationAndNoOverdraft` | backend/internal/platform/database/ledger_repository.go:157-237 | in every reachable state all balances, settlement included, sum to zero and no customer account is negative |
| `BankRuns.OutboxAgreesWithPayments` | backend/internal/payment/outbox.go:30-98 | in every reachable state a BOOKED order has its debit event and a credit event iff the beneficiary is internal, each with the balance just after the posting; FAILED has exactly its failure event; any other status has none |
| `BankRuns.StepMovesOrder` | backend/internal/payment/domain/lifecycle.go:37-55 | every transaction leaves an order's status alone, moves it by one declared transition, or confirms it into BOOKED or FAILED; it keeps what identifies the payment and leaves terminal orders alone |
| `BankRuns.OneEdgeUnlessConfirmedAtOnce` | backend/internal/payment/payments.go:245-318 | in a good state a change is none or one declared transition iff the transaction is not an accepted confirmation of this waiting order that is due at once |
| `BankRuns.SettleMovesOrder` | backend/internal/payment/payments.go:294-315 | settling touches one claimed order and books or fails it |
| `BankRuns.TerminalOrdersAreFinal` | backend/internal/payment/domain/lifecycle.go:37-55 | no run changes a BOOKED, FAILED or CANCELLED row in any way |
| `BankRuns.RunKeepsIdentity` | backend/postgres/sqlc/payments.sql.go:722-729 | no run deletes an order or changes any column of it except those of its progress: override flag, status, reject code, ledger transaction, attempts and start time |
| `BankRuns.LogsOnlyGrow` | backend/postgres/migrations/000011_make_ledger_entries_append_only.up.sql:1-14 | entries and outbox are append-only over every run |
| `BankRuns.StaleRecoveryFrees` | backend/postgres/sqlc/payments.sql.go:876-882 | every committed PROCESSING order has a start time and no ledger transaction, and stale recovery reschedules it exactly when its claim is older than the limit |
| `BankRuns.OneOrderPerKey` | backend/postgres/migrations/000005_add_sepa_payments.up.sql:147 | at most one order per owner and idempotency key in every reachable state |
| `BankRuns.OneAccountPerIban` | backend/postgres/migrations/000005_add_sepa_payments.up.sql:60 | at most one account per IBAN in every reachable state |
| `BankRuns.FailureMovesNoMoney` | backend/internal/payment/payment_worker.go:57-70 | whichever transaction turns an order FAILED confirmed or processed it, changes this one row and appends its failure event, and nothing else |
| `BankRuns.DepositMovesIff` | backend/internal/platform/database/ledger_repository.go:77-148 | a deposit moves the amount from the settlement account to the account exactly when this is an active customer account in the settlement currency and the amount is positive; otherwise nothing changes |
| `BankRuns.ExternalErrorMeans` | backend/internal/platform/database/ledger_repository.go:77-233 | which error a refused deposit or withdrawal has: a missing, system, inactive or foreign-currency account, or a balance below the amount |
| `BankRuns.WithdrawMovesIff` | backend/internal/platform/database/ledger_repository.go:157-233 | a withdrawal moves the amount from the account to the settlement account exactly when the account is an active customer account in the settlement currency with at least this positive balance; otherwise nothing changes |
| `BankRuns.TransferMovesIff` | backend/internal/platform/database/ledger_repository.go:273-360 | a transfer moves the amount exactly between two different active accounts of the requester in one currency with enough balance; otherwise nothing changes |
| `BankRuns.ProcessDecides` | backend/internal/payment/payment_worker.go:48-83 | processing a claimed order of a good state always decides it: booked with the money moved when both accounts are active, in one currency and funded, otherwise FAILED with AC06, CURR or AM04 and no money moved |
| `BankRuns.ConfirmDecides` | backend/internal/payment/payments.go:285-318 | so does the confirmation of an order that is to be executed now, in one transaction |
| `BankRuns.ObstacleIsError` | backend/internal/payment/payments.go:565-576 | in a good state the reject code of a booking error names the obstacle: blocked account, currency or funds |
| `BankRuns.DepositBetweenReads` | backend/internal/platform/database/ledger_repository.go:362-397 | a deposit committed between the two reads makes them differ by its amount |
| `Statements.ConfirmMeans` | backend/internal/payment/payments.go:245-322 | in columns, for a good state and a fresh transaction id: a confirmation is accepted iff the requester owns this waiting order and its payee matched or the mismatch is accepted; a payment for a later time then becomes SCHEDULED and nothing else in the database changes, every other one ends BOOKED or FAILED; the override is recorded iff the payee did not match; a refused one changes nothing |
| `Statements.ClaimMeans` | backend/postgres/sqlc/payments.sql.go:69-83 | in columns: a claim starts exactly the orders of its batch that are SCHEDULED with a requested time not after the clock, counts the attempt, and changes nothing else |
| `Statements.RecoveryMeans` | backend/postgres/sqlc/payments.sql.go:876-882 | in columns: recovery reschedules exactly the PROCESSING orders without ledger transaction whose start is more than the limit ago, and forgets the start |
| `Statements.CancelMeans` | backend/postgres/sqlc/payments.sql.go:17-22 | in columns: the owner cancels a draft, a waiting or a scheduled order, and nothing else changes |
| `Statements.InsertMeans` | backend/postgres/migrations/000005_add_sepa_payments.up.sql:113-149 | in columns: an order is inserted exactly under a new id and a free key, with a positive amount, an existing owner of a customer source account, a different customer account as beneficiary if any, waiting for its confirmation or, for a standing order, scheduled |
| `Statements.AccountMeans` | backend/postgres/sqlc/accounts.sql.go:30-34 | in columns: a new account belongs to an existing user, has a new id and an IBAN of its own, is active, in EUR and empty |
| `Statements.FundedCustomerMeans` | backend/internal/platform/database/ledger_repository.go:30-68 | in columns: a new user, one account and the two entries of a positive opening credit, all of them, or nothing |
| `Statements.DeletionMeans` | backend/postgres/sqlc/accounts.sql.go:74-86 | in columns: exactly an own, empty customer account without entries, orders and standing orders is deleted, and nothing else changes |
| `Statements.TableIsExact` | backend/internal/payment/domain/lifecycle.go:37-55 | the transition table allows a change iff one of the eight guarded status writes makes it for some row |
| `Timing.NothingBeforeItsTime` | backend/postgres/sqlc/payments.sql.go:69-83 | over every run whose clock does not go back: no order for a later time and no occurrence of a standing order is PROCESSING, BOOKED or FAILED, or has an entry in the ledger, before its requested time |
| `BankPreservation.StepKeeps` | backend/internal/payment/payments.go:245-322 | every transaction keeps the whole invariant: caches, entries, events, keys, foreign keys, recoverability |
| `BankPreservation.RunKeeps` | backend/internal/payment/payment_worker.go:16-46 | every run of any number of workers keeps the invariant |
| `BankPreservation.BookKeeps` | backend/internal/payment/payments.go:405-461 | a complete booking with its events keeps the invariant |
| `BankPreservation.FailKeeps` | backend/internal/payment/payments.go:554-563 | recording a failure with its event keeps the invariant |
| `BankPreservation.DeleteAccountKeeps` | backend/postgres/sqlc/accounts.sql.go:74-86 | the guarded delete never orphans an entry or an order |
| `Bank.ConfirmRow` | backend/postgres/sqlc/payments.sql.go:140-148 | the guarded confirmation is a declared transition or no change |
| `Bank.CancelRow` | backend/postgres/sqlc/payments.sql.go:17-22 | the guarded cancellation is a declared transition or no change |
| `Bank.ClaimRow` | backend/postgres/sqlc/payments.sql.go:69-83 | claiming is a declared transition or no change |
| `Bank.MarkProcessingRow` | backend/postgres/sqlc/payments.sql.go:829-836 | marking as processing, which no code calls, is a declared transition or no change |
| `Bank.RecoverRow` | backend/postgres/sqlc/payments.sql.go:876-882 | stale recovery is a declared transition or no change |
| `Bank.BookRow` | backend/postgres/sqlc/payments.sql.go:722-729 | marking as booked is a declared transition or no change |
| `Bank.FailRow` | backend/postgres/sqlc/payments.sql.go:776-781 | marking as failed is a declared transition or no change |
| `Posting.PlanCustomerTransfer` | backend/internal/ledger/domain/posting.go:69-109 | a plan is accepted iff the amount is positive and covered, the accounts differ, are active and in one currency, the requester owns the customer source, and the destination meets the policy; it is then balanced and debits the source and credits the destination by the amount; a rejection names a rule that is broken |
| `Transactions.Tx.CreateEntry` | backend/postgres/migrations/000003_create_entries_table.up.sql:7-21 | appends exactly this single-sided entry of an existing account, or poisons the transaction |
| `Transactions.Tx.UpdateAccountBalance` | backend/postgres/sqlc/accounts.sql.go:409-415 | adds the delta to both cached balances of one account, or poisons the transaction |
| `Transactions.Tx.MarkPaymentBooked` | backend/postgres/sqlc/payments.sql.go:722-729 | books a claimed row without ledger transaction, finds no row, or poisons |
| `Transactions.Tx.MarkPaymentFailed` | backend/postgres/sqlc/payments.sql.go:776-781 | fails a PROCESSING row, finds no row, or poisons |
| `Transactions.Tx.ConfirmPaymentOrder` | backend/postgres/sqlc/payments.sql.go:140-148 | confirms the owner's waiting row, finds no row, or poisons |
| `Booking.BookPayment` | backend/internal/payment/payments.go:356-461 | three outcomes only: poisoned, a business error with the database untouched, or the complete posting; never a partial one |
| `Booking.EnqueueActivityEvent` | backend/internal/payment/outbox.go:63-98 | an accepted event carries the balance read in the transaction and goes to the account's owner |
| `Booking.EnqueueBookedEvents` | backend/internal/payment/outbox.go:30-50 | an accepted call appends the debit event, and the credit event for an owned customer account |
| `Booking.EnqueueFailedEvent` | backend/internal/payment/outbox.go:52-61 | an accepted call appends one failure event to the owner |
| `Booking.SettleInTx` | backend/internal/payment/payments.go:290-315 | a committable outcome is exactly the specified settlement: booked with events, or failed with its event and no money moved |
| `LedgerRepository.WritePosting` | backend/internal/platform/database/ledger_repository.go:108-147 | both entries and both balances, or a poisoned transaction |
| `LedgerRepository.DepositInTx` | backend/internal/platform/database/ledger_repository.go:77-148 | a business error with nothing written, a poisoned transaction, or the complete deposit |
| `LedgerRepository.WithdrawInTx` | backend/internal/platform/database/ledger_repository.go:157-237 | the same for withdrawals |
| `LedgerRepository.TransferInTx` | backend/internal/platform/database/ledger_repository.go:273-360 | the same for own-account transfers |
| `LedgerRepository.CreateFundedCustomerInTx` | backend/internal/platform/database/ledger_repository.go:30-68 | user, account and opening credit, all of them or none |
| `PaymentSystem.RetryWait` | backend/internal/platform/database/store.go:99-110 | the wait before retry n is the smaller of 50 ms times two to the n and one second |
| `PaymentSystem.ConfirmInTx` | backend/internal/payment/payments.go:245-322 | no error means that the requester owns this waiting order, its payee matched or the mismatch is accepted, and the transaction is exactly the confirmation step: with a requested time after the clock of a scheduled payment only this row changed, to SCHEDULED; every other one is BOOKED, or FAILED with the error left in the shared variable |
| `PaymentSystem.ProcessInTx` | backend/internal/payment/payment_worker.go:48-83 | no error means the transaction is exactly the processing step: booked or failed; an error left in the shared variable means that the step would record a failure |
| `PaymentSystem.Database.Finish` | backend/internal/platform/database/store.go:75-97 | the state changes only by a commit of a body without error, acknowledged or not; anything else leaves it as it was |
| `PaymentSystem.Database.ExecTx` | backend/internal/platform/database/store.go:44-73 | with at most ten attempts and arbitrary commits of others between them, the operation takes effect exactly once, from a state the others left, or not at all, and also when the answer to the commit is lost; the reported business error is the last one that any attempt recorded, none only for a BOOKED or SCHEDULED order, and one for a BOOKED order iff an aborted attempt recorded a failure |
| `PaymentSystem.ReportedError` | backend/internal/payment/payments.go:247-321 | over all attempt sequences: no error means BOOKED or SCHEDULED; for an order that did not fail an error is reported iff an earlier attempt recorded a failure |
| `PaymentSystem.CommittedMeans` | backend/internal/platform/database/store.go:44-73 | what an operation did once its transaction took effect, from the state in which it did: the confirmed order was the owner's, waiting, and its payee matched or the mismatch was accepted; the processed one was claimed; a deposit, withdrawal or transfer moved its amount between its accounts |
| `PaymentSystem.StaleErrorForBookedOrder` | backend/internal/payment/payment_worker.go:48-83 | an attempt that records a failure and is aborted, then others, then an attempt that books: the caller gets the first attempt's error for a BOOKED order |
| `Witnesses.StaleErrorOccurs` | backend/internal/payment/payments.go:245-322 | such a run from the empty system: too little money, an abort, a deposit, a booking, and the missing money is reported |
| `PaymentSystem.Database.CancelPayment` | backend/internal/payment/payments.go:325-338 | success implies a committed cancellation of the owner's draft, waiting or scheduled order and no other change; an error may follow a committed cancellation only through the separate audit write |
| `PaymentSystem.Database.DeleteAccount` | backend/postgres/sqlc/accounts.sql.go:74-86 | deletes only an own, empty account without entries and orders, and nothing else |
| `PaymentSystem.Database.RecoverStalePayments` | backend/postgres/sqlc/payments.sql.go:876-882 | the recovery step as a whole with the limit of 300 seconds, or nothing |
| `PaymentSystem.Database.ClaimDuePayments` | backend/postgres/sqlc/payments.sql.go:69-83 | every claimed order was SCHEDULED, not locked by others and requested for a time not after the clock; one that was passed over is later than all claimed ones and the batch is full; exactly the claimed rows change, to PROCESSING with the start time and one more attempt |
| `PaymentSystem.Database.SelectDue` | backend/postgres/sqlc/payments.sql.go:69-83 | the SELECT of the claim: the earliest such orders, each once, in terms of status, requested time and id |
| `PaymentSystem.Database.SettleClaimed` | backend/internal/payment/payment_worker.go:37-45 | an order is counted iff its commit was acknowledged and no error is reported |
| `Occurrences.Worker.SettleBatch` | backend/internal/payment/payment_worker.go:36-45 | the count is the number of orders that a transaction of this call settled without reporting an error, each booked by that very transaction; a booked one is missing iff its answer was lost or an earlier attempt had recorded a failure |
| `Occurrences.Worker.RunDuePayments` | backend/internal/payment/payment_worker.go:16-46 | with others acting on payments and standing orders before, between and after its transactions: at most 100 orders are counted, all of them booked by this call, a booked one missing iff its answer was lost or an aborted attempt had recorded a failure, and none of the settled orders had been settled before; when the key of a claimed standing order is taken, nothing is claimed or settled |
| `Occurrences.Worker.MaterializeStandingOrders` | backend/internal/payment/payment_worker.go:85-129 | one payment order, one payment and one advance for each of the earliest due standing orders, or nothing at all; success implies that all their keys were free |
| `Occurrences.InsertAndAdvance` | backend/internal/payment/payment_worker.go:91-126 | the inserted row of one occurrence has the owner, source, beneficiary, name, IBAN, BIC, amount, purpose and reference of the standing order at that moment, the kind and payee verdict that follow from it, its next execution as requested time and key, and is SCHEDULED; the standing order is advanced; or nothing, when the insert violates a constraint |
| `Occurrences.OccurrencesAreOrders` | backend/internal/payment/payment_worker.go:85-129 | over every run, whatever updates happen: a standing order's counter is the number of its payments, they fall on the calendar's executions, and each is a payment order of its own with the owner, the key and the execution time of its occurrence |
| `OccurrenceTerms.OccurrenceAdds` | backend/internal/payment/payment_worker.go:91-109 | in columns: an occurrence adds one SCHEDULED payment order on the terms of the standing order at that moment (amount, purpose, source, beneficiary, name, IBAN, BIC, reference, kind, payee verdict, time and key), and no other row of the payment core changes |
| `OccurrenceTerms.BatchAdds` | backend/internal/payment/payment_worker.go:85-129 | a batch adds exactly the orders of its pairs, each on the terms of its standing order, and changes no other order, entry, account or event |
| `OccurrenceTerms.CreationMeans` | backend/internal/payment/standing_orders.go:37-100 | in columns: a standing order is created for a positive amount, a customer account of its owner and a different one as beneficiary if any, which are then protected from deletion |
| `OccurrenceTerms.UpdateMeans` | backend/internal/payment/standing_orders.go:103-131 | in columns: an update sets amount, purpose, status, end date and maximum of the owner's order and nothing else |
| `OccurrenceTerms.OccurrencesKeepTheParties` | backend/internal/payment/payment_worker.go:91-109 | over every run, whatever is updated: every payment of a standing order has its owner, source, beneficiary, name, IBAN, BIC and reference, and the kind and payee verdict that follow |
| `OccurrenceTerms.OccurrencesPayTheTerms` | backend/internal/payment/standing_orders.go:103-131 | over every run: as long as a standing order is not updated after its creation, every payment made for it has the terms given at its creation, amount and purpose included |
| `Occurrences.KeyTextOfDate` | backend/internal/payment/payment_worker.go:100 | the key of an occurrence on a valid date and time of day, character by character |
| `Occurrences.MaterialisesIffKeysFree` | backend/internal/payment/payment_worker.go:100-117 | the transaction over a batch of due standing orders goes through iff no payment order has the owner and key of any of the next occurrences |
| `Occurrences.OnlyStrangersTakeKeys` | backend/internal/payment/payment_worker.go:100 | the key of the next occurrence is taken iff an order that no standing order made has it |
| `Occurrences.BlockedForGood` | backend/postgres/migrations/000005_add_sepa_payments.up.sql:147 | a taken key stays taken in every later state, updates and cancellations included: the standing order stands still and every batch that contains it is rolled back |
| `StandingWitness.OwnOrderBlocks` | backend/internal/payment/payment_worker.go:100-117 | from the empty system: a customer sets up a standing order and creates a payment of their own under the key of its first occurrence, with any valid IBAN; the due batch then changes nothing, now and in every later state |
| `Calendar.Rfc3339Injective` | backend/internal/payment/payment_worker.go:100 | different days or seconds have different RFC 3339 texts |
| `Calendar.Rfc3339OfDate` | backend/internal/payment/payment_worker.go:100 | a valid date and time of day is written as YYYY-MM-DDTHH:MM:SSZ |
| `Decimal.FieldIsDecimal` | backend/internal/payment/payment_worker.go:100 | a field of digits stands for its number, and has its width when the number fits |
| `Decimal.DigitsAreDecimal` | backend/internal/payment/payment_worker.go:100 | a numeral stands for its number without leading zeros |
| `Occurrences.KeyTextInjective` | backend/internal/payment/payment_worker.go:100 | different standing orders or execution seconds have different keys |
| `Occurrences.RunKeeps` | backend/postgres/migrations/000005_add_sepa_payments.up.sql:82-107 | every run keeps the accounts of standing orders in existence and their payments linked to payment orders |
| `PaymentSystem.Database.ReconcileAccount` | backend/internal/platform/database/ledger_repository.go:362-397 | succeeds iff both reads do, the account exists and its entry sum did not change between them |
| `Creation.StoredFormIsEquivalent` | backend/internal/payment/payments.go:192-233 | every accepted input is repeated by its stored form, whatever the timestamp rounding and the derived kind |
| `Creation.AcceptedIff` | backend/internal/payment/payments.go:463-495 | an input is accepted iff owner, source, name, IBAN, BIC, amount, texts, key length (8 to 128), rail and schedule are in order and a scheduled time is at most a minute ago; which rule a refusal names |
| `Creation.EquivalentIffRepeats` | backend/internal/payment/domain/intent.go:25-46 | the comparison of intents holds iff source, IBAN, name, BIC, amount, schedule, purpose and reference agree, the times of a scheduled input differ by at most 1000 ns, and the rail agrees or the order is internal |
| `Creation.ReplayStaysEquivalent` | backend/internal/payment/payments.go:530-552 | over every run an order answers each replay the same way |
| `Creation.ReplayFindsTheOrder` | backend/internal/payment/payments.go:137-153 | in every later state the accepted input finds the same single order, and another input under the key is answered with it iff it repeats its columns |
| `Creation.RoundMicro` | backend/internal/payment/payments.go:192-199 | rounds to the nearest microsecond, halfway values up |
| `Creation.LookupByKey` | backend/postgres/sqlc/payments.sql.go:457-460 | no row means that the key is free; a row holds the key |
| `Creation.LookupBeneficiary` | backend/internal/payment/payments.go:169-185 | the account with this IBAN that is not a system account, or proof that there is none |
| `Creation.InsertOrReplay` | backend/internal/payment/payments.go:221-241 | inserts one row exactly when the key is free, and otherwise replays an order whose columns the input repeats or conflicts, with other workers in between; a conflict means that the order under the key differs in one of them or that the second lookup failed |
| `Creation.CreatePayment` | backend/internal/payment/payments.go:129-241 | success returns an order under the key whose columns repeat the input: a new one, adding one row with the input's columns, the beneficiary account and kind that follow from the IBAN, the time to the microsecond, awaiting confirmation, for an account that the customer may debit; or the one that holds the key, adding none; a taken key is decided by these columns alone; invalid inputs are answered with the first rule they break; any other refusal has its reason in the accounts as read or in an order that differs |
| `Iban.Mod97` | backend/internal/account/iban.go:111-123 | the streaming remainder is the expanded integer modulo 97 |
| `Iban.ValidateIban` | backend/internal/account/iban.go:38-67 | accepts exactly the values whose normal form has 15 to 34 characters, 22 for DE, two letters, two digits, letters and digits, and expanded integer 1 modulo 97 |
| `Iban.NormalizeTwice` | backend/internal/account/iban.go:27-34 | normalising a normalised value changes nothing |
| `Iban.NormalizeMeans` | backend/internal/account/iban.go:27-34 | character by character: white space disappears and everything else is written in upper case |
| `Iban.GermanDemoIbanForAccount` | backend/internal/account/iban.go:83-99 | every account number below 10^10 gets a valid 22-character IBAN of the demo bank with its ten digits; larger ones are refused |
| `Iban.GeneratedIsValid` | backend/internal/account/iban.go:83-99 | check digits computed from the account part make the whole number valid |
| `Iban.BbanInjective` | backend/internal/account/iban.go:83-99 | different account numbers give different account parts |
| `Iban.SingleDigitErrorIsRejected` | backend/internal/account/iban.go:38-67 | changing any single digit of the account part of a valid IBAN makes it invalid |
| `Iban.AdjacentSwapIsRejected` | backend/internal/account/iban.go:38-67 | swapping two different adjacent digits of the account part makes it invalid |
| `Iban.ExpandConcat` | backend/internal/account/iban.go:111-123 | the expanded integer of a concatenation from those of its parts |
| `EditDistance.Levenshtein` | backend/internal/payment/vop.go:123-144 | the two rolling rows return the length of a shortest script of insertions, deletions and substitutions |
| `EditDistance.NextRow` | backend/internal/payment/vop.go:131-142 | the inner loop turns the row of one prefix into the row of the next |
| `EditDistance.LevIsShortest` | backend/internal/payment/vop.go:123-144 | a script of that length exists and none is shorter |
| `EditDistance.NoShorterScript` | backend/internal/payment/vop.go:123-144 | every script that rewrites a into b has at least that many edits |
| `EditDistance.LevSymmetric` | backend/internal/payment/vop.go:123-144 | the distance is symmetric |
| `EditDistance.LevZero` | backend/internal/payment/vop.go:123-144 | the distance is zero exactly on equal texts |
| `EditDistance.LevTriangle` | backend/internal/payment/vop.go:123-144 | the distance satisfies the triangle inequality |
| `NameMatching.NormalizePersonName` | backend/internal/payment/vop.go:86-100 | the builder loop yields the lower-case words joined by single spaces |
| `NameMatching.NormalForm` | backend/internal/payment/vop.go:86-100 | normalising is idempotent, and two names have the same normal form iff they have the same words |
| `NameMatching.TokensAreWords` | backend/internal/payment/vop.go:86-100 | letters and digits alone are one word in lower case, any other character separates, nothing has no words: these rules determine the words of every name |
| `NameMatching.TrimMeans` | backend/internal/payment/vop.go:80 | trimming removes white space at both ends, all of it and nothing else |
| `NameMatching.WordsOfJoin` | backend/internal/payment/vop.go:86-103 | splitting the joined words gives the words back |
| `NameMatching.SameNameTokens` | backend/internal/payment/vop.go:102-121 | the count map decides: at least two words on both sides and equal multisets of words |
| `NameMatching.EvaluateVoP` | backend/internal/payment/vop.go:67-84 | OTHER iff no account holder is known or the name has no words; MATCH iff the words are equal; CLOSE_MATCH iff they differ and some edit script has at most two edits or at most a fifth of the holder's name, or at least two words are the same in another order; the holder's name is disclosed on CLOSE_MATCH only |
| `NameMatching.VerdictMeans` | backend/internal/payment/vop.go:67-84 | each of the four verdicts as an if and only if over words and edit scripts |
| `NameMatching.RefusedNamesAreFarApart` | backend/internal/payment/vop.go:77-83 | a refused name needs more than two edits, and more than a fifth of the actual name, by every script, and is no reordering; two edits or fewer are never refused |
| `Calendar.AddMonthsMeaning` | backend/internal/payment/standing_orders.go:162-167 | month arithmetic with overflow and day 0 lands in the target month on the same or its last day at the same time |
| `Calendar.MonthOfYear` | backend/internal/payment/standing_orders.go:162-167 | the lengths of the twelve months under the Gregorian leap rule |
| `Calendar.YearStart` | backend/internal/payment/standing_orders.go:162-167 | the day number of every 1 January in closed form: 365 days a year and one for every fourth, but not every hundredth, yet every four hundredth year |
| `Calendar.NextIsLater` | backend/internal/payment/standing_orders.go:149-160 | the next execution is later: 7 days weekly; 28 to 31 days and one month monthly; three months quarterly; twelve yearly; at the same time of day |
| `Calendar.ExecutionClosedForm` | backend/internal/payment/standing_orders.go:149-167 | k steps of 1, 3 or 12 months land in month m0 + k n on the clamped day, never below the smaller of the start day and 28, at the same time of day |
| `Calendar.ClampedDayIsMinimum` | backend/internal/payment/standing_orders.go:162-167 | that day is the minimum of the start day and the lengths of all months landed on |
| `Calendar.ExecutionWeekly` | backend/internal/payment/standing_orders.go:149-152 | k weekly steps are 7 k days |
| `Calendar.ExecutionsIncrease` | backend/internal/payment/standing_orders.go:149-160 | executions strictly increase, at least a week apart |
| `StandingOrders.StandingOrderRuns` | backend/internal/payment/payment_worker.go:85-129 | over every run whose updates leave room: the counter is the number of payments, they fall on the calendar's executions with distinct keys, none on a day after the end date, at most max(1, MaxOccurrences) |
| `StandingOrders.CompletedIsExact` | backend/internal/payment/standing_orders.go:169-174 | a completed order made exactly the first number of payments, at least one, that reaches the maximum or whose next execution is past midnight of the end date |
| `StandingOrders.MaterialiseMeans` | backend/internal/payment/payment_worker.go:110-121 | in columns: only an ACTIVE order whose time has come makes a payment, for that time and key; it is COMPLETED iff the count reaches the maximum or the next time is past midnight of the end date; otherwise nothing changes |
| `StandingOrders.StoppedOrdersStaySilent` | backend/postgres/sqlc/standing_orders.sql.go:16-21 | a COMPLETED or CANCELLED order makes no more payments unless it is updated |
| `StandingOrders.UpdateHarmlessIffRoom` | backend/internal/payment/standing_orders.go:103-131 | an accepted update, also of a row that oversteps its limits already, leaves room iff the limits are respected in every continuation that does not update the order again |
| `StandingOrders.UpdateKeepsIffRoom` | backend/internal/payment/standing_orders.go:103-131 | an update keeps the history, and the invariant of the limits iff it leaves room |
| `StandingOrders.NoRoomOversteps` | backend/internal/payment/payment_worker.go:85-129 | without room the limits are overstepped already (PAUSED) or by the next materialisation (ACTIVE) |
| `StandingOrders.ClosedUpdateOvershoots` | backend/internal/payment/standing_orders.go:103-131 | after any other update to ACTIVE the next occurrence oversteps a limit |
| `StandingOrders.UpdateRevivesCompleted` | backend/postgres/sqlc/standing_orders.sql.go:316-321 | a completed order with limit 1 can be revived and makes a second payment |
| `StandingOrders.RunKeeps` | backend/internal/payment/payment_worker.go:85-129 | every run whose updates leave room keeps history and limits of every order |
| `StandingOrders.StandingOrderStore.CreateStandingOrder` | backend/internal/payment/standing_orders.go:37-100 | accepts a start of at least yesterday, an end not before it and a positive maximum, and inserts exactly the given columns, ACTIVE, with count zero and due at its start |
| `StandingOrders.StandingOrderStore.UpdateStandingOrder` | backend/internal/payment/standing_orders.go:103-131 | sets status, end date and maximum of the owner's row, whatever its status, and nothing else; keeps the invariant iff it leaves room |
| `StandingOrders.StandingOrderStore.CancelStandingOrder` | backend/postgres/sqlc/standing_orders.sql.go:192-196 | sets the owner's active or paused order to CANCELLED and nothing else, or changes nothing |
| `StandingOrders.StandingOrderStore.ClaimDue` | backend/postgres/sqlc/standing_orders.sql.go:60-65 | the earliest ACTIVE orders whose next execution is not after the clock and that others have not locked, in order of execution time and id, and all of them unless the batch is full |
| `Delivery.NoEventIsLost` | backend/internal/platform/outbox/outbox.go:74-153 | in every reachable state every committed event is unpublished, held by the broker, processed or dead-lettered, and no copy exceeds the retry limit |
| `Delivery.StepKeepsSafe` | backend/internal/platform/rabbitmq/rabbitmq.go:327-380 | no step, crash, lost confirm or dropped connection takes an event out of broker, processed and dead letters together |
| `Delivery.RowsStay` | backend/internal/platform/outbox/outbox.go:30-48 | outbox rows are never deleted and stay published |
| `Delivery.NewlyConfirmed` | backend/internal/platform/rabbitmq/rabbitmq.go:144-184 | a publication counts as confirmed only when the broker holds the message |
| `DeliveryStatements.OutboxClaimMeans` | backend/internal/platform/outbox/outbox.go:74-118 | in columns: a claim takes distinct unpublished rows without a running lease, leases them for 30 seconds and counts the attempt, and changes no other row; or nothing |
| `DeliveryStatements.PublishLeaseLasts` | backend/internal/platform/outbox/outbox.go:74-118 | a claimed row can be claimed again iff more than 30 seconds have passed |
| `DeliveryStatements.ReleasedRowWaits` | backend/internal/platform/outbox/outbox.go:137-153 | a row given back can be claimed again iff more than one second has passed |
| `DeliveryStatements.MarkedRowIsDone` | backend/internal/platform/outbox/outbox.go:119-135 | a row is marked published only after an observed confirmation, and is never claimed again |
| `DeliveryStatements.EventClaimMeans` | backend/internal/platform/notificationstore/store.go:39-75 | in columns: a consumer's claim is granted iff nobody has the unprocessed event under a running lease, for 120 seconds, counting the attempt; otherwise the message is acknowledged for a processed event and retried for a busy one |
| `DeliveryStatements.ProcessingLeaseLasts` | backend/internal/platform/notificationstore/store.go:39-75 | a claimed event is free again iff more than 120 seconds have passed |
| `DeliveryStatements.FailedDeliveryFrees` | backend/internal/platform/notificationstore/store.go:95-107 | after a failed delivery with its release the event is free as soon as the clock moves |
| `DeliveryStatements.SuccessMeans` | backend/internal/platform/notificationstore/store.go:77-93 | in columns: a stored success marks the event processed; the message is acknowledged only when the store reported the first success |
| `DeliveryStatements.LeavesBrokerIff` | backend/internal/platform/rabbitmq/rabbitmq.go:327-380 | a message leaves the broker only by its own acknowledgement, or with a consumer that lost its connection |
| `DeliveryStatements.DeadIff` | backend/internal/platform/rabbitmq/rabbitmq.go:337-380 | a dead letter is written iff the broker accepts it for a rejected message, or for a failed one with no retry left |
| `Deliverability.DeliverableIff` | backend/internal/platform/rabbitmq/rabbitmq.go:227-260 | in every reachable state an event can still be processed iff it has been, or is unpublished, or a publisher will send it, or somebody has a copy to deliver; otherwise it has been dead-lettered and no later state has it processed |
| `Deliverability.CopiesDecide` | backend/internal/platform/outbox/outbox.go:194-214 | for a published event that no publisher holds the copies decide alone |
| `Deliverability.GivenUpForGood` | backend/internal/platform/rabbitmq/rabbitmq.go:327-380 | an event without such a chance is neither processed nor under delivery in any later state |
| `Deliverability.BuriedIffBusyAtLimit` | backend/internal/platform/rabbitmq/rabbitmq.go:337-355 | a received copy leads to a dead letter iff it is at the limit and finds the lease running; the other delivery then goes on and may still fail |
| `Deliverability.BurialOccurs` | backend/internal/platform/rabbitmq/rabbitmq.go:327-380 | a run from the empty system in which this happens: a lost confirm, a second publication, two copies |
| `Deliverability.NeverDeliveredOccurs` | backend/internal/platform/rabbitmq/rabbitmq.go:327-380 | its continuation, after which no later state has the published event processed or under delivery |
| `RetryHeaders.RetryCopyCounts` | backend/internal/platform/rabbitmq/rabbitmq.go:369-401 | a retry copy counts exactly one more than the original iff the sum fits 32 bits, under the same key, and keeps every other header |
| `RetryHeaders.RetryCountMeans` | backend/internal/platform/rabbitmq/rabbitmq.go:382-396 | the count is the integer under its key, of any of the three widths, and zero otherwise |
| `RetryHeaders.DeadLetterKeepsCount` | backend/internal/platform/rabbitmq/rabbitmq.go:357-380 | a dead letter keeps the count and carries its reason |
| `ConsumerLease.OneDelivererAtATime` | backend/internal/platform/notificationstore/store.go:39-75 | when every span from claim to settlement fits the lease, at most one consumer delivers an event, those included whose connection has dropped, and none delivers a processed one |
| `ConsumerLease.SecondClaimIffExpired` | backend/internal/platform/notificationstore/store.go:39-75 | a second claim is granted during a delivery iff more than 120 seconds have passed since the first one |
| `ConsumerLease.NoDeliveryAfterProcessed` | backend/internal/platform/notificationstore/store.go:77-93 | once an event is processed no delivery of it starts again, prompt or not |
| `ConsumerLease.WhoWritesMark` | backend/internal/platform/notificationstore/store.go:95-107 | an event's row changes only by a granted claim or by the end of the delivery that holds it |
| `DeliveryWorkers.ClaimIsAtomic` | backend/internal/platform/notificationstore/store.go:39-75 | the upsert and the look-up, with others in between, give the result of an undivided claim at one of the two moments, and the looked-up row exists |
| `DeliveryWorkers.Node.ClaimEvent` | backend/internal/platform/notificationstore/store.go:39-75 | Claimed iff the consumer now delivers: the event was free and is leased for 120 seconds with one more attempt; already processed and busy exactly as the row says |
| `DeliveryWorkers.Node.Process` | backend/internal/platform/rabbitmq/rabbitmq.go:227-260 | while others act and the connection may drop: processed and duplicate outcomes imply a processed row; retry and dead leave the message to be settled so |
| `DeliveryWorkers.Node.DeadLetter` | backend/internal/platform/rabbitmq/rabbitmq.go:357-367 | afterwards the event is safe: dead-lettered, or the message is back in the queue, at the latest through the dropped connection |
| `DeliveryWorkers.Node.HandleDelivery` | backend/internal/platform/rabbitmq/rabbitmq.go:327-355 | while others act and the connection may drop: the event stays safe and ends processed, dead-lettered, or in the broker, as a copy with one more retry or as the message itself; a failed attempt makes a copy only below the limit and a dead letter only at it |
| `DeliveryWorkers.Node.HandleRetry` | backend/internal/platform/rabbitmq/rabbitmq.go:337-355 | the same for a failed attempt: the counted copy below the limit, the dead letter at it, the message put back or taken back |
| `DeliveryWorkers.Node.Publish` | backend/internal/platform/rabbitmq/rabbitmq.go:144-184 | true implies that the broker holds the event; the outbox is untouched |
| `DeliveryWorkers.Node.FlushOne` | backend/internal/platform/outbox/outbox.go:202-212 | publishes and marks one event, others acting before and in between: success means published and safe, and left alone the call changes no other published flag |
| `DeliveryWorkers.Node.Flush` | backend/internal/platform/outbox/outbox.go:194-214 | leases the earliest publishable rows that others have not locked, all of them unless the batch is full; while others act, on success the whole batch is published and safe, after an early exit a prefix is; left alone, exactly this prefix is published |
| `DeliveryWorkers.BatchMeans` | backend/internal/platform/outbox/outbox.go:74-118 | a batch in columns: unpublished rows without a running lease that others have not locked, each once; a row left out is later than all of them, and the batch is full |
| `Merchant.IntentsAgreeWithOrders` | backend/internal/merchant/service.go:158-207 | under any number of concurrent approvals and expirations a waiting or expired intent links no order, any other links one order of its own that carries its amount, IBAN and reference, and BOOKED or FAILED intents have BOOKED or FAILED orders |
| `Merchant.LinkIsFinal` | backend/internal/platform/database/merchant.go:145-162 | a link is never replaced or removed |
| `Merchant.LinkKeeps` | backend/internal/platform/database/merchant.go:145-162 | of all approvals of an intent at most one gets past the link |
| `Merchant.RequestMeans` | backend/internal/merchant/service.go:166-172 | the payment of an approval has the intent's amount, name, IBAN and reference, is to be executed at once, and has the key "merchant:" and the intent's id, so that payments of different intents never share a key |
| `Merchant.PayMeans` | backend/internal/merchant/service.go:158-175 | in columns: the order that an approval goes on with belongs to the customer, debits the chosen account and carries the intent's amount, IBAN, name, reference and key |
| `Merchant.LinkMeans` | backend/internal/platform/database/merchant.go:145-162 | in columns: the link is made iff the intent waits, has no order, and no intent has this order |
| `Merchant.StartMeans` | backend/internal/merchant/service.go:133-165 | an approval starts iff the intent waits for a customer and has not expired |
| `Merchant.ExpireMeans` | backend/internal/platform/database/merchant.go:175-182 | a waiting intent expires iff its time has come, and nothing else changes |
| `Merchant.ExpiredIsFinal` | backend/internal/platform/database/merchant.go:145-182 | an expired intent stays expired and unlinked over every run |
| `Merchant.ResultMeans` | backend/internal/merchant/service.go:175-186 | BOOKED is recorded iff the order is booked and no error was reported, FAILED iff it failed and an answer came, and nothing otherwise |
| `Merchant.PendingResolvesIff` | backend/internal/merchant/service.go:172-190 | an intent in PROCESSING can leave it iff some approval of it has a result to record, or has linked an order that can still be confirmed without an override; otherwise it stays so in every later state |
| `Merchant.LaggingResolvesIff` | backend/internal/merchant/service.go:175-190 | an intent in PROCESSING with a BOOKED order can become BOOKED iff some approval has the booking in hand; otherwise it stays so in every later state |
| `Merchant.BookedBeforeLinkLags` | backend/internal/merchant/service.go:172-184 | an order booked before the approval links it leaves the intent in PROCESSING for ever, without a crash |
| `Merchant.StaleErrorLags` | backend/internal/merchant/service.go:179-185 | so does a booking that reports a stale error, or whose answer is lost |
| `Merchant.CrashLeavesProcessing` | backend/internal/merchant/service.go:175-190 | so does an approval that stops between booking and record |
| `Witnesses.LagsWithoutCrash` | backend/internal/merchant/service.go:158-190 | a run from the empty system, with the merchant's account in place, in which nobody stops and the intent stays in PROCESSING |
| `Witnesses.LagsAfterCrash` | backend/internal/merchant/service.go:158-190 | such a run with a crash |
| `Merchant.RunKeeps` | backend/internal/platform/database/merchant.go:145-182 | every run keeps the intent, approval and bank invariants |
| `Merchant.OneIntentPerReference` | backend/postgres/migrations/000016_add_merchant_payment_intents.up.sql:30 | at most one intent per merchant and reference over every run |
| `Merchant.ConfirmBooksOrFails` | backend/internal/merchant/service.go:175-186 | a confirmation that changes an immediate order books or fails it |
| `MerchantService.Checkout.LinkMerchantIntentPayment` | backend/internal/platform/database/merchant.go:145-162 | success implies that a waiting intent without an order was linked to an order that no other intent has, and is now PROCESSING; otherwise nothing changed |
| `MerchantService.Checkout.SetMerchantIntentStatus` | backend/internal/platform/database/merchant.go:165-172 | sets the status of the one intent, or changes nothing |
| `MerchantService.Checkout.ExpireMerchantPaymentIntent` | backend/internal/platform/database/merchant.go:175-182 | a waiting intent whose time has come becomes EXPIRED, or nothing changes |
| `MerchantService.Checkout.GetIntentForCustomer` | backend/internal/merchant/service.go:133-154 | returns a live stored intent whose linked order, if any, belongs to the customer; changes nothing except by expiring a late one |
| `MerchantService.Checkout.CreateIntent` | backend/internal/merchant/service.go:92-129 | with other requests before and after the insert: returns the stored intent of this reference and amount, new iff the reference was free at the insert; a conflict means another amount under the reference; under a reference taken at the start nobody adds an intent; a failure under a free reference changes nothing |
| `MerchantService.Checkout.Approve` | backend/internal/merchant/service.go:158-207 | success means a BOOKED intent linked to a BOOKED order of this customer on this account, under the key of this intent and with its terms; an intent that is not waiting is left alone |
| `MerchantService.Checkout.SettleIntent` | backend/internal/merchant/service.go:175-186 | the confirmation of the linked order as one machine step after arbitrary others, or nothing; without a result to record although it took effect iff the answer was lost, or a BOOKED order comes with the error of an aborted attempt |
| `MerchantService.CompletedStays` | backend/internal/merchant/service.go:187-190 | a recorded BOOKED intent and its order never change again |
| `RowLocks.NoWaitCycle` | backend/postgres/sqlc/accounts.sql.go:331-336 | any number of transactions that lock in one order, by id or with one account before all others, never form a wait-for cycle |
| `RowLocks.SomeoneCanMove` | backend/internal/platform/database/ledger_repository.go:274-277 | in every reachable state some such transaction is not blocked |
| `RowLocks.TransferPlan` | backend/internal/platform/database/ledger_repository.go:274-277 | transfers lock both accounts and nothing else, in ascending order |
| `RowLocks.BookingPlan` | backend/internal/payment/payments.go:377 | bookings lock the order row, then both accounts in ascending order, and nothing else |
| `RowLocks.ExternalPlan` | backend/internal/platform/database/ledger_repository.go:77-100 | deposits and withdrawals lock the settlement account and then the customer account: in ascending order iff the settlement id is the lower one |
| `RowLocks.MixDeadlocksIff` | backend/internal/platform/database/ledger_repository.go:77-100 | for any set of customer accounts: a mix of transfers, internal and outgoing bookings, and deposits or withdrawals has a run into a wait cycle iff it has outgoing bookings and deposits or withdrawals and some customer id is below the settlement id |
| `RowLocks.DepositAndBookingCanDeadlock` | backend/internal/platform/database/ledger_repository.go:77-100 | a concrete run of a deposit and an external booking ends in a wait cycle when the settlement id is the higher one |
| `RateLimiter.AtMostTwiceTheLimit` | backend/internal/platform/httpapi/security.go:92-129 | any half-open interval of one window admits at most twice the limit per client |
| `RateLimiter.AdmittedBound` | backend/internal/platform/httpapi/security.go:113-118 | the admitted requests since any time are bounded by what the running window allows |
| `RateLimiter.WindowMeans` | backend/internal/platform/httpapi/security.go:110-118 | a client's window began with one of its requests, because it was the first or the window before had run out, and counts this one and all later ones, which fell within its length |
| `RateLimiter.AdmitsMeans` | backend/internal/platform/httpapi/security.go:110-129 | a request is admitted iff at most the limit of its client's requests, itself included, belong to its window |
| `RateLimiter.Limiter.Handle` | backend/internal/platform/httpapi/security.go:92-129 | with cleanup, for non-decreasing times, exactly the requests are admitted that the limiter without cleanup admits |
| `RateLimiter.CleaningKeeps` | backend/internal/platform/httpapi/security.go:103-110 | removing expired windows never changes what the limiter knows |

## Left out

- PaymentSystem.Database.ExecTx: waiting between attempts is reduced to the computed wait; a cancellation during it is an arbitrary outcome.
- MerchantService.Checkout.LinkMerchantIntentPayment: a lost answer to a single auto-committed statement is not modelled for its caller, here and in the other single statements; the runs of the machines contain the states it leads to, as the statement followed by the end of the request.
- Occurrences.Worker.RunDuePayments: between two attempts of one settlement transaction the others act on the payment core only.
- Occurrences.KeyTextInjective: ids are numbers in decimal, not in the UUID notation.
- Calendar.AddMonthsMeaning: dates are UTC days from year 0 on; zones and daylight saving are not modelled.
- Iban.ValidateIban: the Unicode tables of white space and upper case are parameters.
- NameMatching.NormalizePersonName: letters, digits, white space and lower case come from finite tables with the laws of `Regular`; the Unicode tables themselves are not modelled.
- Creation.CreatePayment: trimming; the plain-text, BIC and decimal-syntax checks are given by their outcomes (`nameOk`, `bicOk`, `textOk`, `amount`); the payee verification result is arbitrary; purpose categories and end-to-end ids are dropped.
- RowLocks.NoWaitCycle: only explicit row locks on orders and accounts; locks taken by foreign-key checks and by serializable isolation are PostgreSQL's own and not modelled.
- DeliveryWorkers.Node.HandleDelivery: the broker is taken to handle what one channel sends in order, so that a message acknowledged after its copy was published has its copy.
- RateLimiter.Limiter.Handle: request times are assumed non-decreasing in the order in which the mutex is taken, although the code reads the clock just before; the Retry-After header and the extraction of the client address are dropped.
- AdjustBalanceAsAdmin: a deposit or withdrawal with an audit row in the same transaction; the model has the deposit and the withdrawal.
- Audit rows, the event hub, webhooks, descriptions, profile data, listing and pagination: no property depends on them.
- Event payloads beyond recipient, account, balance and amount; validation of a received payload is an arbitrary outcome.
- NUMERIC overflow and amounts below one minor unit: amounts are unbounded integers.
- Rows of users are never deleted; the model has no user deletion.
- Identity, sessions, password reset, cards, HTTP handlers and the gateway: easy invariants or plumbing around opaque libraries.
