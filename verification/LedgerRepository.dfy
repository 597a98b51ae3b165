/** Deposits, withdrawals and own-account transfers inside an open transaction (ledger_repository.go). */
module LedgerRepository {
  import opened Wrappers
  import opened Posting
  import opened Bank
  import opened Transactions

  /** Insert both entries, then adjust both cached balances; any refusal poisons the transaction. */
  method WritePosting(tx: Tx, first: Entry, second: Entry) returns (accepted: bool)
    requires !tx.poisoned
    modifies tx
    ensures accepted == !tx.poisoned
    ensures accepted ==> LegalEntry(first) && LegalEntry(second) && tx.db == Post(old(tx.db), first, second)
  {
    accepted := tx.CreateEntry(first);
    if accepted {
      accepted := tx.CreateEntry(second);
    }
    if accepted {
      assert old(tx.db).entries + [first] + [second] == old(tx.db).entries + [first, second];
      accepted := tx.UpdateAccountBalance(first.account, Delta(first));
    }
    if accepted {
      accepted := tx.UpdateAccountBalance(second.account, Delta(second));
    }
  }

  /** The checks that deposits and withdrawals share. */
  method LockExternal(tx: Tx, account: Uuid) returns (r: Result<Account, LedgerError>)
    requires !tx.poisoned
    modifies tx`poisoned
    ensures tx.poisoned ==> r == Failure(SqlError)
    ensures !tx.poisoned ==>
              match r
              case Failure(e) => DepositError(tx.db, account) == Some(e)
              case Success(a) => DepositError(tx.db, account).None? && a == tx.db.accounts[account]
  {
    var settlement := tx.GetSettlementAccount();
    if settlement.Failure? {
      return Failure(settlement.error);
    }
    var settlementRow := tx.GetAccount(settlement.value);
    if settlementRow.Failure? {
      return Failure(settlementRow.error);
    }
    var row := tx.GetAccount(account);
    if row.Failure? {
      return Failure(row.error);
    }
    if row.value.isSystem {
      return Failure(SystemAccount);
    }
    if !row.value.status.Active? {
      return Failure(AccountBlocked);
    }
    if row.value.currency != settlementRow.value.currency {
      return Failure(CurrencyMismatch);
    }
    return Success(row.value);
  }

  /** Either a business error with nothing written, a poisoned transaction, or the complete posting. */
  method DepositInTx(tx: Tx, account: Uuid, amount: int, txId: Uuid) returns (error: Option<LedgerError>)
    requires !tx.poisoned
    modifies tx
    ensures tx.poisoned ==> error.Some?
    ensures !tx.poisoned && error.Some? ==> tx.db == old(tx.db) && error == DepositError(tx.db, account)
    ensures error.None? ==>
              DepositError(old(tx.db), account).None? && amount > 0
              && tx.db == DepositState(old(tx.db), account, amount, txId)
  {
    var row := LockExternal(tx, account);
    if row.Failure? {
      return Some(row.error);
    }
    var accepted := WritePosting(tx, Entry(account, 0, amount, txId, None), Entry(tx.db.settlement, amount, 0, txId, None));
    error := if accepted then None else Some(SqlError);
  }

  method WithdrawInTx(tx: Tx, account: Uuid, amount: int, txId: Uuid) returns (error: Option<LedgerError>)
    requires !tx.poisoned
    modifies tx
    ensures tx.poisoned ==> error.Some?
    ensures !tx.poisoned && error.Some? ==> tx.db == old(tx.db) && error == WithdrawError(tx.db, account, amount)
    ensures error.None? ==>
              WithdrawError(old(tx.db), account, amount).None? && amount > 0
              && tx.db == WithdrawState(old(tx.db), account, amount, txId)
  {
    var row := LockExternal(tx, account);
    if row.Failure? {
      return Some(row.error);
    }
    if row.value.balance < amount {
      return Some(InsufficientFunds);
    }
    var accepted := WritePosting(tx, Entry(account, amount, 0, txId, None), Entry(tx.db.settlement, 0, amount, txId, None));
    error := if accepted then None else Some(SqlError);
  }

  method TransferInTx(tx: Tx, owner: Uuid, from: Uuid, to: Uuid, amount: int, txId: Uuid)
    returns (error: Option<LedgerError>)
    requires !tx.poisoned
    modifies tx
    ensures tx.poisoned ==> error.Some?
    ensures !tx.poisoned && error.Some? ==> tx.db == old(tx.db) && error == TransferError(tx.db, owner, from, to, amount)
    ensures error.None? ==>
              TransferError(old(tx.db), owner, from, to, amount).None?
              && tx.db == TransferState(old(tx.db), from, to, amount, txId)
  {
    var locked := tx.ListAccountsForUpdate({from, to});
    if locked.Failure? {
      return Some(locked.error);
    }
    if from == to || from !in locked.value || to !in locked.value {
      return Some(AccountNotFound);
    }
    var source, destination := locked.value[from], locked.value[to];
    var plan := PlanCustomerTransfer(owner, SnapshotOf(from, source, source.balance), SnapshotOf(to, destination, 0),
                                     amount, TransferPolicy(true, false));
    if plan.Failure? {
      return Some(plan.error);
    }
    var debit, credit := plan.value.debitLeg, plan.value.creditLeg;
    var accepted := WritePosting(tx, Entry(debit.account, debit.debit, debit.credit, txId, None),
                                 Entry(credit.account, credit.debit, credit.credit, txId, None));
    error := if accepted then None else Some(SqlError);
  }

  /** User, default account and opening credit: all of them or none. */
  method CreateFundedCustomerInTx(tx: Tx, user: Uuid, account: Uuid, iban: string, opening: int, txId: Uuid)
    returns (error: Option<LedgerError>)
    requires !tx.poisoned && !UsesTx(tx.db.entries, txId) && tx.db.settlement in tx.db.issued
    modifies tx
    ensures tx.poisoned ==> error.Some?
    ensures error.None? ==>
              && tx.db == Apply(old(tx.db), CreateFundedCustomer(user, account, iban, opening, txId)) != old(tx.db)
              && user !in old(tx.db).users && opening > 0
              && account in tx.db.accounts && tx.db.accounts[account].owner == Some(user)
              && tx.db.accounts[account].balance == tx.db.accounts[account].available == opening
  {
    var accepted := tx.CreateUser(user);
    if !accepted {
      return Some(SqlError);
    }
    accepted := tx.CreateAccount(account, user, iban);
    if !accepted {
      return Some(SqlError);
    }
    error := DepositInTx(tx, account, opening, txId);
  }
}
