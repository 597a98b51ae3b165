/** Booking and failing a payment inside an open transaction (payments.go, payment/outbox.go). */
module Booking {
  import opened Wrappers
  import opened Posting
  import opened Lifecycle
  import opened Bank
  import opened Transactions

  /**
    The caller holds the lock on the order row, so `order` is the row. When the owner exists, as the foreign key
    demands, the outcome is one of three: the transaction is poisoned, a business error with the database
    untouched, or the complete posting. A partial posting can never be committed.
   */
  method BookPayment(tx: Tx, id: Uuid, order: PaymentOrder, txId: Uuid) returns (r: Result<PaymentOrder, LedgerError>)
    requires id in tx.db.orders && tx.db.orders[id] == order
    requires order.ledgerTx.None? && order.owner in tx.db.users && !tx.poisoned
    modifies tx
    ensures id in tx.db.orders
    ensures tx.poisoned ==> r == Failure(SqlError)
    ensures !tx.poisoned && r.Failure? ==>
              tx.db == old(tx.db) && BookingError(old(tx.db), order) == Some(r.error)
    ensures r.Success? ==>
              && BookingError(old(tx.db), order).None?
              && tx.db == BookedState(old(tx.db), id, order, txId) && r.value == tx.db.orders[id]
  {
    if !Allowed(order.status, Booked) {
      return Failure(InvalidState);
    }
    if order.amount <= 0 {
      return Failure(InvalidAmount);
    }
    var destinationId: Uuid;
    if order.beneficiary.Some? {
      destinationId := order.beneficiary.value;
    } else {
      var settlement := tx.GetSettlementAccount();
      if settlement.Failure? {
        return Failure(settlement.error);
      }
      destinationId := settlement.value;
    }
    if destinationId == order.source {
      return Failure(SameAccountTransfer);
    }
    var locked := tx.ListAccountsForUpdate({order.source, destinationId});
    if locked.Failure? {
      return Failure(locked.error);
    }
    var accounts := locked.value;
    if order.source !in accounts || destinationId !in accounts {
      return Failure(AccountNotFound);
    }
    var source, destination := accounts[order.source], accounts[destinationId];
    var plan := PlanCustomerTransfer(order.owner, SnapshotOf(order.source, source, source.available),
                                     SnapshotOf(destinationId, destination, 0), order.amount, TransferPolicy(false, true));
    if plan.Failure? {
      return Failure(if plan.error.AccountOwnership? || plan.error.SystemAccount? then Unauthorized else plan.error);
    }
    var debit, credit := plan.value.debitLeg, plan.value.creditLeg;

    var accepted := tx.CreateEntry(Entry(debit.account, debit.debit, debit.credit, txId, Some(id)));
    if !accepted {
      return Failure(SqlError);
    }
    var sender := tx.GetUserById(order.owner);
    if sender.Failure? {
      return Failure(sender.error);
    }
    accepted := tx.CreateEntry(Entry(credit.account, credit.debit, credit.credit, txId, Some(id)));
    if !accepted {
      return Failure(SqlError);
    }
    accepted := tx.UpdateAccountBalance(debit.account, -debit.debit);
    if !accepted {
      return Failure(SqlError);
    }
    accepted := tx.UpdateAccountBalance(credit.account, credit.credit);
    if !accepted {
      return Failure(SqlError);
    }
    assert old(tx.db).entries + [DebitEntry(old(tx.db), id, order, txId)] + [CreditEntry(old(tx.db), id, order, txId)]
        == old(tx.db).entries + [DebitEntry(old(tx.db), id, order, txId), CreditEntry(old(tx.db), id, order, txId)];
    r := tx.MarkPaymentBooked(id, txId);
  }

  /** Any error while an event is built rolls the transaction back, so only the accepted outcome is described. */
  method EnqueueActivityEvent(tx: Tx, kind: EventKind, direction: Direction, id: Uuid, order: PaymentOrder,
                              recipient: Uuid, account: Uuid) returns (accepted: bool)
    modifies tx
    ensures old(tx.poisoned) ==> tx.poisoned && !accepted
    ensures accepted ==>
              && !tx.poisoned && Deliverable(old(tx.db), recipient, account)
              && tx.db == old(tx.db).(outbox := old(tx.db).outbox
                   + [Event(kind, direction, id, recipient, account, old(tx.db).accounts[account].balance, order.amount)])
  {
    var user := tx.GetUserById(recipient);
    if user.Failure? {
      return false;
    }
    var row := tx.GetAccount(account);
    if row.Failure? || row.value.isSystem || row.value.owner != Some(recipient) {
      return false;
    }
    accepted := tx.InsertOutboxEvent(Event(kind, direction, id, recipient, account, row.value.balance, order.amount));
  }

  method EnqueueBookedEvents(tx: Tx, id: Uuid, order: PaymentOrder) returns (accepted: bool)
    modifies tx
    ensures old(tx.poisoned) ==> tx.poisoned && !accepted
    ensures accepted ==>
              && !tx.poisoned && BookedEvents(old(tx.db), id, order).Some?
              && tx.db == old(tx.db).(outbox := old(tx.db).outbox + BookedEvents(old(tx.db), id, order).value)
  {
    accepted := EnqueueActivityEvent(tx, PaymentBooked, DebitSide, id, order, order.owner, order.source);
    if !accepted || order.beneficiary.None? {
      return;
    }
    var b := order.beneficiary.value;
    var destination := tx.GetAccount(b);
    if destination.Failure? {
      return false;
    }
    if destination.value.isSystem || destination.value.owner.None? {
      return true;
    }
    accepted := EnqueueActivityEvent(tx, PaymentBooked, CreditSide, id, order, destination.value.owner.value, b);
    ghost var first, second := DebitEvent(id, order, old(tx.db).accounts[order.source].balance),
                               CreditEvent(id, order, b, destination.value.owner.value, old(tx.db).accounts[b].balance);
    assert old(tx.db).outbox + [first] + [second] == old(tx.db).outbox + [first, second];
  }

  method EnqueueFailedEvent(tx: Tx, id: Uuid, order: PaymentOrder) returns (accepted: bool)
    modifies tx
    ensures old(tx.poisoned) ==> tx.poisoned && !accepted
    ensures accepted ==>
              && !tx.poisoned && Deliverable(old(tx.db), order.owner, order.source)
              && tx.db == old(tx.db).(outbox := old(tx.db).outbox
                   + [FailedEvent(id, order, old(tx.db).accounts[order.source].balance)])
  {
    accepted := EnqueueActivityEvent(tx, PaymentFailed, DebitSide, id, order, order.owner, order.source);
  }

  /**
    Book a claimed order, or record the failure, with the events of either. When the transaction may commit, its
    state is the settled state of the specification and `failure` is the business error that it records.
   */
  method SettleInTx(tx: Tx, id: Uuid, order: PaymentOrder, txId: Uuid)
    returns (commit: bool, failure: Option<LedgerError>)
    requires id in tx.db.orders && tx.db.orders[id] == order
    requires order.ledgerTx.None? && order.owner in tx.db.users && !tx.poisoned
    modifies tx
    ensures commit ==>
              && !tx.poisoned && Settle(old(tx.db), id, txId) == Some(tx.db)
              && failure == BookingError(old(tx.db), order)
              && (failure.None? <==> tx.db.orders[id].status.Booked?)
              && (failure.Some? ==> tx.db.entries == old(tx.db).entries && tx.db.accounts == old(tx.db).accounts)
  {
    var booked := BookPayment(tx, id, order, txId);
    if booked.Failure? {
      failure := Some(booked.error);
      if !Allowed(order.status, Failed) {
        return false, failure;
      }
      var failed := tx.MarkPaymentFailed(id, RejectCode(booked.error));
      if failed.Failure? {
        return false, failure;
      }
      commit := EnqueueFailedEvent(tx, id, order);
    } else {
      failure := None;
      commit := EnqueueBookedEvents(tx, id, order);
    }
  }
}
