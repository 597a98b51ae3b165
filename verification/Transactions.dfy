/**
  An open SQL transaction. A statement that the server rejects poisons the transaction: every later statement
  fails and nothing can be committed. A query that finds no row, or a business rule of the caller, does not.
 */
module Transactions {
  import opened Wrappers
  import opened Posting
  import opened Lifecycle
  import opened Bank

  /** The account rows with the given ids. */
  function Rows(accounts: map<Uuid, Account>, ids: set<Uuid>): map<Uuid, Account> {
    map id | id in ids && id in accounts :: accounts[id]
  }

  class Tx {
    var db: State
    var poisoned: bool

    constructor (snapshot: State)
      ensures db == snapshot && !poisoned
    {
      db, poisoned := snapshot, false;
    }

    /** Send one statement; the server may reject it for a reason that the model does not look into. */
    method Send() returns (accepted: bool)
      modifies this`poisoned
      ensures accepted == !poisoned
      ensures old(poisoned) ==> poisoned
    {
      if * {
        poisoned := true;
      }
      accepted := !poisoned;
    }

    method GetPaymentOrderForUpdate(id: Uuid) returns (r: Result<PaymentOrder, LedgerError>)
      modifies this`poisoned
      ensures old(poisoned) ==> poisoned
      ensures r == if poisoned then Failure(SqlError)
                   else if id in db.orders then Success(db.orders[id]) else Failure(NoRows)
    {
      var accepted := Send();
      r := if !accepted then Failure(SqlError) else if id in db.orders then Success(db.orders[id]) else Failure(NoRows);
    }

    method GetSettlementAccount() returns (r: Result<Uuid, LedgerError>)
      modifies this`poisoned
      ensures old(poisoned) ==> poisoned
      ensures r == if poisoned then Failure(SqlError)
                   else if db.settlement in db.accounts then Success(db.settlement) else Failure(NoRows)
    {
      var accepted := Send();
      r := if !accepted then Failure(SqlError)
           else if db.settlement in db.accounts then Success(db.settlement) else Failure(NoRows);
    }

    method GetAccount(id: Uuid) returns (r: Result<Account, LedgerError>)
      modifies this`poisoned
      ensures old(poisoned) ==> poisoned
      ensures r == if poisoned then Failure(SqlError)
                   else if id in db.accounts then Success(db.accounts[id]) else Failure(NoRows)
    {
      var accepted := Send();
      r := if !accepted then Failure(SqlError) else if id in db.accounts then Success(db.accounts[id]) else Failure(NoRows);
    }

    /** `id = ANY(...) ORDER BY id FOR UPDATE`: one row per existing id. */
    method ListAccountsForUpdate(ids: set<Uuid>) returns (r: Result<map<Uuid, Account>, LedgerError>)
      modifies this`poisoned
      ensures old(poisoned) ==> poisoned
      ensures r == if poisoned then Failure(SqlError) else Success(Rows(db.accounts, ids))
    {
      var accepted := Send();
      r := if !accepted then Failure(SqlError) else Success(Rows(db.accounts, ids));
    }

    method GetUserById(id: Uuid) returns (r: Result<Uuid, LedgerError>)
      modifies this`poisoned
      ensures old(poisoned) ==> poisoned
      ensures r == if poisoned then Failure(SqlError) else if id in db.users then Success(id) else Failure(NoRows)
    {
      var accepted := Send();
      r := if !accepted then Failure(SqlError) else if id in db.users then Success(id) else Failure(NoRows);
    }

    /** The row's CHECK constraint and foreign key are enforced by the server. */
    method CreateEntry(e: Entry) returns (accepted: bool)
      modifies this
      ensures old(poisoned) ==> poisoned
      ensures accepted == !poisoned
      ensures poisoned ==> db == old(db)
      ensures !poisoned ==> LegalEntry(e) && e.account in db.accounts && db == old(db).(entries := old(db).entries + [e])
    {
      accepted := Send();
      if !LegalEntry(e) || e.account !in db.accounts {
        poisoned, accepted := true, false;
      }
      if accepted {
        db := db.(entries := db.entries + [e]);
      }
    }

    method UpdateAccountBalance(id: Uuid, amount: int) returns (accepted: bool)
      modifies this
      ensures old(poisoned) ==> poisoned
      ensures accepted == !poisoned
      ensures db == if poisoned then old(db) else old(db).(accounts := AddToBalance(old(db).accounts, id, amount))
    {
      accepted := Send();
      if accepted {
        db := db.(accounts := AddToBalance(db.accounts, id, amount));
      }
    }

    /** INSERT of a user; the primary key refuses a second row. */
    method CreateUser(user: Uuid) returns (accepted: bool)
      modifies this
      ensures old(poisoned) ==> poisoned
      ensures accepted == !poisoned
      ensures !poisoned ==> user != NIL && user !in old(db).users && db == old(db).(users := old(db).users + {user})
    {
      accepted := Send();
      if user == NIL || user in db.users {
        poisoned, accepted := true, false;
      }
      if accepted {
        db := db.(users := db.users + {user});
      }
    }

    /** INSERT of an owned EUR account with a generated id and zero balances. */
    method CreateAccount(account: Uuid, owner: Uuid, iban: string) returns (accepted: bool)
      modifies this
      ensures old(poisoned) ==> poisoned
      ensures accepted == !poisoned
      ensures !poisoned ==>
                && owner in old(db).users && account !in old(db).issued && IbanFree(old(db), iban)
                && db == AddAccount(old(db), account, owner, iban)
    {
      accepted := Send();
      if owner !in db.users || account in db.issued || !IbanFree(db, iban) {
        poisoned, accepted := true, false;
      }
      if accepted {
        db := AddAccount(db, account, owner, iban);
      }
    }

    /** A guarded UPDATE of one order row: no row when the guard misses. */
    method UpdateOrder(id: Uuid, after: PaymentOrder, guard: bool) returns (r: Result<PaymentOrder, LedgerError>)
      modifies this
      ensures old(poisoned) ==> poisoned
      ensures poisoned ==> r == Failure(SqlError) && db == old(db)
      ensures !poisoned && guard ==> r == Success(after) && db == old(db).(orders := old(db).orders[id := after])
      ensures !poisoned && !guard ==> r == Failure(NoRows) && db == old(db)
    {
      var accepted := Send();
      if !accepted {
        r := Failure(SqlError);
      } else if guard {
        db := db.(orders := db.orders[id := after]);
        r := Success(after);
      } else {
        r := Failure(NoRows);
      }
    }

    method ConfirmPaymentOrder(id: Uuid, owner: Uuid, target: Status, overridden: bool)
      returns (r: Result<PaymentOrder, LedgerError>)
      modifies this
      ensures old(poisoned) ==> poisoned
      ensures poisoned ==> r == Failure(SqlError) && db == old(db)
      ensures !poisoned && r.Failure? ==>
                db == old(db) && (id !in db.orders || db.orders[id].owner != owner || !db.orders[id].status.AwaitingConfirmation?)
      ensures r.Success? ==>
                && id in old(db).orders && old(db).orders[id].owner == owner
                && old(db).orders[id].status.AwaitingConfirmation?
                && r.value == ConfirmRow(old(db).orders[id], target, overridden)
                && db == old(db).(orders := old(db).orders[id := r.value])
    {
      if id in db.orders {
        r := UpdateOrder(id, ConfirmRow(db.orders[id], target, overridden),
                         db.orders[id].owner == owner && db.orders[id].status.AwaitingConfirmation?);
      } else {
        var accepted := Send();
        r := Failure(if accepted then NoRows else SqlError);
      }
    }

    method MarkPaymentBooked(id: Uuid, txId: Uuid) returns (r: Result<PaymentOrder, LedgerError>)
      requires id in db.orders
      modifies this
      ensures old(poisoned) ==> poisoned
      ensures poisoned ==> r == Failure(SqlError) && db == old(db)
      ensures !poisoned && r.Failure? ==>
                db == old(db) && (!db.orders[id].status.Processing? || db.orders[id].ledgerTx.Some?)
      ensures r.Success? ==>
                && old(db).orders[id].status.Processing? && old(db).orders[id].ledgerTx.None?
                && r.value == BookRow(old(db).orders[id], txId)
                && db == old(db).(orders := old(db).orders[id := r.value])
    {
      r := UpdateOrder(id, BookRow(db.orders[id], txId), db.orders[id].status.Processing? && db.orders[id].ledgerTx.None?);
    }

    method MarkPaymentFailed(id: Uuid, code: string) returns (r: Result<PaymentOrder, LedgerError>)
      requires id in db.orders
      modifies this
      ensures old(poisoned) ==> poisoned
      ensures poisoned ==> r == Failure(SqlError) && db == old(db)
      ensures !poisoned && r.Failure? ==> db == old(db) && !db.orders[id].status.Processing?
      ensures r.Success? ==>
                && old(db).orders[id].status.Processing?
                && r.value == FailRow(old(db).orders[id], code)
                && db == old(db).(orders := old(db).orders[id := r.value])
    {
      r := UpdateOrder(id, FailRow(db.orders[id], code), db.orders[id].status.Processing?);
    }

    method InsertOutboxEvent(e: Event) returns (accepted: bool)
      modifies this
      ensures old(poisoned) ==> poisoned
      ensures accepted == !poisoned
      ensures db == if poisoned then old(db) else old(db).(outbox := old(db).outbox + [e])
    {
      accepted := Send();
      if accepted {
        db := db.(outbox := db.outbox + [e]);
      }
    }
  }
}
