/**
  The database as the services see it: transactions that commit as a whole or vanish, retried on serialization
  failures, with any number of other workers committing in between.
 */
module PaymentSystem {
  import opened Wrappers
  import opened Posting
  import opened Lifecycle
  import opened Bank
  import opened BankInvariant
  import opened BankPreservation
  import opened BankRuns
  import opened Transactions
  import opened Booking
  import opened LedgerRepository
  import opened Statements

  const MAX_ATTEMPTS := 10
  const STALE_SECONDS := 300

  function Pow2(n: nat): nat {
    if n == 0 then 1 else 2 * Pow2(n - 1)
  }

  lemma {:induction false} Pow2Grows(i: nat, j: nat)
    requires i <= j
    ensures 1 <= Pow2(i) <= Pow2(j)
    decreases j
  {
    if i < j {
      Pow2Grows(i, j - 1);
    } else if j > 0 {
      Pow2Grows(i - 1, j - 1);
    }
  }

  /** Milliseconds before the next attempt: exponential, at most one second. */
  method RetryWait(attempt: nat) returns (wait: nat)
    ensures wait == if 50 * Pow2(attempt) < 1000 then 50 * Pow2(attempt) else 1000
  {
    wait := 50;
    for i := 0 to attempt
      invariant wait == 50 * Pow2(i) < 1000
    {
      wait := wait * 2;
      if wait >= 1000 {
        Pow2Grows(i + 1, attempt);
        return 1000;
      }
    }
  }

  /** The operations that run inside ExecTx. */
  datatype Operation =
    | ConfirmOp(owner: Uuid, id: Uuid, acceptMismatch: bool)
    | ProcessOp(id: Uuid)
    | DepositOp(account: Uuid, amount: int)
    | WithdrawOp(account: Uuid, amount: int)
    | TransferOp(owner: Uuid, from: Uuid, to: Uuid, amount: int)

  /** The operations that settle a payment order. */
  predicate Settles(op: Operation) {
    op.ConfirmOp? || op.ProcessOp?
  }

  /** The step carries out the operation, with a clock and a ledger transaction id of its own. */
  predicate Performs(op: Operation, step: Step) {
    match op
    case ConfirmOp(owner, id, acceptMismatch) =>
      step.Confirm? && step.owner == owner && step.id == id && step.acceptMismatch == acceptMismatch
    case ProcessOp(id) => step.Process? && step.id == id
    case DepositOp(account, amount) => step.Deposit? && step.account == account && step.amount == amount
    case WithdrawOp(account, amount) => step.Withdraw? && step.account == account && step.amount == amount
    case TransferOp(owner, from, to, amount) =>
      step.Transfer? && step.owner == owner && step.from == from && step.to == to && step.amount == amount
  }

  /** A commit may take effect although its acknowledgement is lost: the caller is told of an error then. */
  datatype Outcome = Committed | Unacknowledged | RolledBack(error: LedgerError) | SerializationFailure

  predicate TookEffect(outcome: Outcome) {
    outcome.Committed? || outcome.Unacknowledged?
  }

  // ----- attempts -----

  /** One attempt: the state it started from, its step, and the business error that its body left in the variable
      that all attempts share. */
  datatype Try = Try(state: State, step: Step, recorded: Option<LedgerError>)

  predicate OrderIs(s: State, id: Uuid, status: Status) {
    id in s.orders && s.orders[id].status == status
  }

  /** Committed in this state, the step records its order as failed. */
  predicate WouldFail(s: State, step: Step) {
    (step.Confirm? || step.Process?) && OrderIs(Apply(s, step), step.id, Failed)
  }

  ghost predicate GoodTry(op: Operation, t: Try) {
    Inv(t.state) && Performs(op, t.step) && (t.recorded.Some? ==> WouldFail(t.state, t.step))
  }

  /** What the attempt did to the database. */
  predicate Explains(t: Try, committed: bool, after: State) {
    if !committed then after == t.state
    else
      && after == Apply(t.state, t.step) && after != t.state
      && (t.recorded.Some? ==> after.entries == t.state.entries && after.accounts == t.state.accounts)
      && (t.step.Process? ==> OrderIs(after, t.step.id, if t.recorded.Some? then Failed else Booked))
      && (t.step.Confirm? ==>
            if t.recorded.Some? then OrderIs(after, t.step.id, Failed)
            else OrderIs(after, t.step.id, Booked) || OrderIs(after, t.step.id, Scheduled))
      && (!t.step.Process? && !t.step.Confirm? ==> t.recorded.None?)
  }

  ghost predicate AllGood(op: Operation, trail: seq<Try>) {
    forall i :: 0 <= i < |trail| ==> GoodTry(op, trail[i])
  }

  /** The others commit between one attempt and the next. */
  ghost predicate Chained(trail: seq<Try>) {
    forall i, j :: 0 <= i < |trail| && j == i + 1 && j < |trail| ==> Reachable(trail[i].state, trail[j].state)
  }

  /** At most ten attempts; all but the last were aborted. */
  ghost predicate Attempts(op: Operation, trail: seq<Try>) {
    1 <= |trail| <= MAX_ATTEMPTS && AllGood(op, trail) && Chained(trail)
  }

  function Final(trail: seq<Try>): Try
    requires trail != []
  {
    trail[|trail| - 1]
  }

  /** The shared variable after all attempts: nothing resets it. */
  function LastRecorded(trail: seq<Try>): Option<LedgerError> {
    if trail == [] then None
    else if Final(trail).recorded.Some? then Final(trail).recorded
    else LastRecorded(trail[..|trail| - 1])
  }

  /** An attempt that was aborted later had recorded a business failure. */
  predicate StaleFailure(trail: seq<Try>) {
    exists i :: 0 <= i < |trail| - 1 && trail[i].recorded.Some?
  }

  lemma {:induction false} LastRecordedSome(trail: seq<Try>)
    ensures LastRecorded(trail).Some? <==> exists i :: 0 <= i < |trail| && trail[i].recorded.Some?
  {
    if trail != [] {
      LastRecordedSome(trail[..|trail| - 1]);
    }
  }

  /** What the caller is told once the last attempt has committed: no error only for a BOOKED or SCHEDULED order; and
      an error for an order that did not fail exactly when an earlier, aborted attempt had recorded a failure. */
  lemma {:induction false} ReportedError(op: Operation, trail: seq<Try>, after: State)
    requires Attempts(op, trail) && Explains(Final(trail), true, after) && Settles(op)
    ensures op.id in after.orders
    ensures LastRecorded(trail).None? ==>
              after.orders[op.id].status.Booked? || (op.ConfirmOp? && after.orders[op.id].status.Scheduled?)
    ensures after.orders[op.id].status.Failed? ==> LastRecorded(trail) == Final(trail).recorded
    ensures !after.orders[op.id].status.Failed? ==> (LastRecorded(trail).Some? <==> StaleFailure(trail))
  {
    assert GoodTry(op, Final(trail));
    LastRecordedSome(trail);
  }

  /** What an operation has done once its transaction took effect, seen from the state in which it did: the confirmed order
      was the owner's and waiting, the processed one was claimed, and money went where the operation says. */
  lemma {:induction false} CommittedMeans(op: Operation, trail: seq<Try>, after: State)
    requires Attempts(op, trail) && Explains(Final(trail), true, after)
    ensures var before := Final(trail).state;
      match op
      case ConfirmOp(owner, id, acceptMismatch) =>
        && id in before.orders && before.orders[id].owner == owner && before.orders[id].status == AwaitingConfirmation
        && (before.orders[id].vop == Match || acceptMismatch)
      case ProcessOp(id) => id in before.orders && before.orders[id].status == Processing
      case DepositOp(account, amount) => MoneyWent(before, after, before.settlement, account, amount)
      case WithdrawOp(account, amount) => MoneyWent(before, after, account, before.settlement, amount)
      case TransferOp(owner, from, to, amount) =>
        && MoneyWent(before, after, from, to, amount)
        && before.accounts[from].owner == before.accounts[to].owner == Some(owner)
  {
    assert GoodTry(op, Final(trail));
    if Settles(op) {
      SettlementTaken(op, Final(trail), after);
    } else {
      MoneyTaken(op, Final(trail), after);
    }
  }

  lemma SettlementTaken(op: Operation, t: Try, after: State)
    requires Settles(op) && GoodTry(op, t) && Explains(t, true, after)
    ensures op.id in t.state.orders
    ensures op.ConfirmOp? ==>
              var o := t.state.orders[op.id];
              o.owner == op.owner && o.status == AwaitingConfirmation && (o.vop == Match || op.acceptMismatch)
    ensures op.ProcessOp? ==> t.state.orders[op.id].status == Processing
  {
    hide Settle, UsesTx, ConfirmRow, ConfirmTarget;
  }

  lemma MoneyTaken(op: Operation, t: Try, after: State)
    requires !Settles(op) && GoodTry(op, t) && Explains(t, true, after)
    ensures op.DepositOp? ==> MoneyWent(t.state, after, t.state.settlement, op.account, op.amount)
    ensures op.WithdrawOp? ==> MoneyWent(t.state, after, op.account, t.state.settlement, op.amount)
    ensures op.TransferOp? ==>
              && MoneyWent(t.state, after, op.from, op.to, op.amount)
              && t.state.accounts[op.from].owner == t.state.accounts[op.to].owner == Some(op.owner)
  {
    var s := t.state;
    ReachedWithoutTx(t, after);
    match t.step {
      case Deposit(account, amount, txId) => DepositMovesIff(s, account, amount, txId);
      case Withdraw(account, amount, txId) => WithdrawMovesIff(s, account, amount, txId);
      case Transfer(owner, from, to, amount, txId) => TransferMovesIff(s, owner, from, to, amount, txId);
      case _ =>
    }
    hide Apply, MoneyWent, Inv;
  }

  lemma ReachedWithoutTx(t: Try, after: State)
    requires Explains(t, true, after) && (t.step.Deposit? || t.step.Withdraw? || t.step.Transfer?)
    ensures !UsesTx(t.state.entries, t.step.txId) && after == Apply(t.state, t.step) && after != t.state
  {
  }

  lemma AttemptsAdd(op: Operation, trail: seq<Try>, t: Try)
    requires trail == [] || (Attempts(op, trail) && Reachable(Final(trail).state, t.state))
    requires |trail| < MAX_ATTEMPTS && GoodTry(op, t)
    ensures Attempts(op, trail + [t]) && Final(trail + [t]) == t && (trail + [t])[0] == if trail == [] then t else trail[0]
    ensures LastRecorded(trail + [t]) == if t.recorded.Some? then t.recorded else LastRecorded(trail)
  {
    AttemptsGrow(op, trail, t);
    LastRecordedAdd(trail, t);
  }

  lemma AttemptsGrow(op: Operation, trail: seq<Try>, t: Try)
    requires trail == [] || (Attempts(op, trail) && Reachable(Final(trail).state, t.state))
    requires |trail| < MAX_ATTEMPTS && GoodTry(op, t)
    ensures Attempts(op, trail + [t]) && Final(trail + [t]) == t && (trail + [t])[0] == if trail == [] then t else trail[0]
  {
    AllGoodAdd(op, trail, t);
    ChainedAdd(trail, t);
  }

  lemma AllGoodAdd(op: Operation, trail: seq<Try>, t: Try)
    requires AllGood(op, trail) && GoodTry(op, t)
    ensures AllGood(op, trail + [t])
  {
    forall i | 0 <= i < |trail + [t]| ensures GoodTry(op, (trail + [t])[i]) {
      if i < |trail| {
        assert (trail + [t])[i] == trail[i];
      } else {
        assert (trail + [t])[i] == t;
      }
    }
  }

  lemma ChainedAdd(trail: seq<Try>, t: Try)
    requires Chained(trail) && (trail == [] || Reachable(Final(trail).state, t.state))
    ensures Chained(trail + [t])
  {
    var next := trail + [t];
    forall i, j | 0 <= i < |next| && j == i + 1 && j < |next| ensures Reachable(next[i].state, next[j].state) {
      assert j < |trail| ==> next[i] == trail[i] && next[j] == trail[j];
    }
  }

  lemma LastRecordedAdd(trail: seq<Try>, t: Try)
    ensures LastRecorded(trail + [t]) == if t.recorded.Some? then t.recorded else LastRecorded(trail)
  {
    assert (trail + [t])[..|trail|] == trail;
  }

  lemma CommitEnds(op: Operation, trail: seq<Try>, after: State)
    requires Attempts(op, trail) && Explains(Final(trail), true, after)
    ensures Inv(after)
    ensures Settles(op) ==>
              && op.id in after.orders
              && (LastRecorded(trail).None? ==>
                    after.orders[op.id].status.Booked? || (op.ConfirmOp? && after.orders[op.id].status.Scheduled?))
              && (after.orders[op.id].status.Booked? ==> (LastRecorded(trail).Some? <==> StaleFailure(trail)))
  {
    assert GoodTry(op, Final(trail));
    StepKeeps(Final(trail).state, Final(trail).step);
    if Settles(op) {
      ReportedError(op, trail, after);
    }
  }

  /** Such a run: the first attempt records a failure and is aborted, others commit, the second attempt books. The
      caller gets the error of the first attempt for a BOOKED order. */
  lemma {:induction false} StaleErrorForBookedOrder(op: Operation, s: State, first: Step, others: seq<Step>, second: Step,
                                                    error: LedgerError)
    requires Inv(s) && Settles(op) && Performs(op, first) && Performs(op, second) && WouldFail(s, first)
    requires var m := Run(s, others); OrderIs(Apply(m, second), op.id, Booked) && Apply(m, second) != m
    ensures var m := Run(s, others);
      var trail := [Try(s, first, Some(error)), Try(m, second, None)];
      && Attempts(op, trail) && Explains(Final(trail), true, Apply(m, second))
      && OrderIs(Apply(m, second), op.id, Booked) && LastRecorded(trail) == Some(error) && StaleFailure(trail)
  {
    ReachableBy(s, others);
    TwoAttempts(op, Try(s, first, Some(error)), Try(Run(s, others), second, None));
  }

  lemma TwoAttempts(op: Operation, a: Try, b: Try)
    requires GoodTry(op, a) && GoodTry(op, b) && Reachable(a.state, b.state) && a.recorded.Some? && b.recorded.None?
    ensures Attempts(op, [a, b]) && LastRecorded([a, b]) == a.recorded && StaleFailure([a, b])
  {
    assert [] + [a] == [a] && [a] + [b] == [a, b];
    AttemptsAdd(op, [], a);
    AttemptsAdd(op, [a], b);
    assert [a, b][0].recorded.Some?;
  }

  lemma {:induction false} RunAppend(s: State, first: seq<Step>, second: seq<Step>)
    ensures Run(Run(s, first), second) == Run(s, first + second)
    decreases |first|
  {
    if first == [] {
      assert first + second == second;
    } else {
      RunAppend(Apply(s, first[0]), first[1..], second);
      assert (first + second)[0] == first[0] && (first + second)[1..] == first[1..] + second;
    }
  }

  lemma ReachableBy(s: State, steps: seq<Step>)
    requires Inv(s)
    ensures Reachable(s, Run(s, steps)) && Inv(Run(s, steps))
  {
    RunKeeps(s, steps);
  }

  lemma ReachableRefl(s: State)
    ensures Reachable(s, s)
  {
    assert s == Run(s, []);
  }

  lemma ReachableStep(s: State, t: State, step: Step)
    requires Reachable(s, t)
    ensures Reachable(s, Apply(t, step))
  {
    var steps :| t == Run(s, steps);
    RunAppend(s, steps, [step]);
    RunOne(t, step);
  }

  lemma RunOne(s: State, step: Step)
    ensures Run(s, [step]) == Apply(s, step)
  {
    assert Run(s, [step]) == Run(Apply(s, step), []);
  }

  lemma ReachableTrans(s: State, t: State, u: State)
    requires Reachable(s, t) && Reachable(t, u)
    ensures Reachable(s, u)
  {
    var first :| t == Run(s, first);
    var second :| u == Run(t, second);
    RunAppend(s, first, second);
  }

  /** uuid.New for a ledger transaction: an id that no entry carries. */
  method NewTxId(entries: seq<Entry>) returns (txId: Uuid)
    ensures !UsesTx(entries, txId)
  {
    txId := 1;
    for i := 0 to |entries|
      invariant forall j :: 0 <= j < i ==> entries[j].txId < txId
    {
      if entries[i].txId >= txId {
        txId := entries[i].txId + 1;
      }
    }
  }

  /** What the foreign key and the booking guard say about one order of a good state. */
  lemma OrderFacts(s: State, id: Uuid)
    requires Inv(s) && id in s.orders
    ensures s.orders[id].owner in s.users
    ensures !s.orders[id].status.Booked? ==> s.orders[id].ledgerTx.None?
  {
    assert OrderOk(s, id);
  }

  /**
    The transaction body of ConfirmPayment. No error means that it may be committed; `recorded` is what it leaves in
    the variable outside, which happens before the audit row is written.
   */
  method ConfirmInTx(tx: Tx, owner: Uuid, id: Uuid, acceptMismatch: bool, now: int, txId: Uuid)
    returns (recorded: Option<LedgerError>, error: Option<LedgerError>)
    requires !tx.poisoned && !UsesTx(tx.db.entries, txId)
    requires id in tx.db.orders ==>
               tx.db.orders[id].owner in tx.db.users && (!tx.db.orders[id].status.Booked? ==> tx.db.orders[id].ledgerTx.None?)
    modifies tx
    ensures tx.poisoned ==> error.Some?
    ensures recorded.Some? ==> WouldFail(old(tx.db), Confirm(owner, id, acceptMismatch, now, txId))
    ensures error.None? ==>
              && id in old(tx.db).orders && id in tx.db.orders && old(tx.db).orders[id].owner == owner
              && old(tx.db).orders[id].status == AwaitingConfirmation && (old(tx.db).orders[id].vop == Match || acceptMismatch)
              && (if old(tx.db).orders[id].schedule == AtTime && now < old(tx.db).orders[id].requestedAt then
                    && recorded.None? && tx.db == old(tx.db).(orders := old(tx.db).orders[id := tx.db.orders[id]])
                    && tx.db.orders[id].status == Scheduled
                  else if recorded.None? then tx.db.orders[id].status == Booked
                  else tx.db.orders[id].status == Failed)
              && Explains(Try(old(tx.db), Confirm(owner, id, acceptMismatch, now, txId), recorded), true, tx.db)
  {
    var locked := tx.GetPaymentOrderForUpdate(id);
    if locked.Failure? {
      return None, Some(locked.error);
    }
    var order := locked.value;
    if order.owner != owner {
      return None, Some(NoRows);
    }
    if !order.status.AwaitingConfirmation? {
      return None, Some(InvalidState);
    }
    var requiresOverride := !order.vop.Match?;
    if requiresOverride && !acceptMismatch {
      return None, Some(Unauthorized);
    }
    var target := Processing;
    if order.schedule.AtTime? && order.requestedAt > now {
      target := Scheduled;
    }
    if !Allowed(order.status, target) {
      return None, Some(InvalidState);
    }
    var confirmed := tx.ConfirmPaymentOrder(id, owner, target, requiresOverride);
    if confirmed.Failure? {
      return None, Some(confirmed.error);
    }
    recorded := None;
    if !target.Scheduled? {
      var complete, failure := SettleInTx(tx, id, confirmed.value, txId);
      if !complete {
        return None, Some(SqlError);
      }
      recorded := failure;
    }
    var audited := tx.Send();
    error := if audited then None else Some(SqlError);
  }

  /** The transaction body of processClaimedPayment. */
  method ProcessInTx(tx: Tx, id: Uuid, txId: Uuid) returns (recorded: Option<LedgerError>, error: Option<LedgerError>)
    requires !tx.poisoned && !UsesTx(tx.db.entries, txId)
    requires id in tx.db.orders ==> tx.db.orders[id].owner in tx.db.users
    modifies tx
    ensures tx.poisoned ==> error.Some?
    ensures recorded.Some? ==> WouldFail(old(tx.db), Process(id, txId))
    ensures error.None? ==>
              && OrderIs(old(tx.db), id, Processing)
              && Explains(Try(old(tx.db), Process(id, txId), recorded), true, tx.db)
  {
    var locked := tx.GetPaymentOrderForUpdate(id);
    if locked.Failure? {
      return None, Some(locked.error);
    }
    if !locked.value.status.Processing? || locked.value.ledgerTx.Some? {
      return None, Some(InvalidState);
    }
    var complete, failure := SettleInTx(tx, id, locked.value, txId);
    if !complete {
      return None, Some(SqlError);
    }
    recorded := failure;
    var audited := tx.Send();
    error := if audited then None else Some(SqlError);
  }

  /** The transaction bodies of deposits, withdrawals and transfers. */
  method MoneyInTx(tx: Tx, op: Operation, txId: Uuid) returns (step: Step, error: Option<LedgerError>)
    requires !Settles(op) && !tx.poisoned && !UsesTx(tx.db.entries, txId)
    modifies tx
    ensures Performs(op, step) && (tx.poisoned ==> error.Some?)
    ensures error.None? ==> Explains(Try(old(tx.db), step, None), true, tx.db)
  {
    match op {
      case DepositOp(account, amount) =>
        step := Deposit(account, amount, txId);
        error := DepositInTx(tx, account, amount, txId);
      case WithdrawOp(account, amount) =>
        step := Withdraw(account, amount, txId);
        error := WithdrawInTx(tx, account, amount, txId);
      case TransferOp(owner, from, to, amount) =>
        step := Transfer(owner, from, to, amount, txId);
        error := TransferInTx(tx, owner, from, to, amount, txId);
    }
    assert error.None? ==> |tx.db.entries| == |old(tx.db).entries| + 2;
  }

  class Database {
    var state: State

    constructor (settlement: Uuid)
      ensures state == Initial(settlement) && Inv(state)
    {
      state := Initial(settlement);
      new;
      InitialInv(settlement);
    }

    /** Other workers commit any number of transactions. */
    method Interfere()
      requires Inv(state)
      modifies this
      ensures Inv(state) && Reachable(old(state), state)
    {
      var others: seq<Step> := *;
      ReachableBy(state, others);
      state := Run(state, others);
    }

    /** The server aborted the transaction; a serialization failure is one reason. */
    method Aborted() returns (outcome: Outcome)
      ensures !TookEffect(outcome)
    {
      outcome := RolledBack(SqlError);
      if * {
        outcome := SerializationFailure;
      }
    }

    method ConfirmOnce(owner: Uuid, id: Uuid, acceptMismatch: bool)
      returns (outcome: Outcome, step: Step, recorded: Option<LedgerError>)
      requires Inv(state)
      modifies this
      ensures GoodTry(ConfirmOp(owner, id, acceptMismatch), Try(old(state), step, recorded))
      ensures Explains(Try(old(state), step, recorded), TookEffect(outcome), state)
    {
      var txId := NewTxId(state.entries);
      var now: int := *;
      step := Confirm(owner, id, acceptMismatch, now, txId);
      var tx := new Tx(state);
      if id in state.orders {
        OrderFacts(state, id);
      }
      var error;
      recorded, error := ConfirmInTx(tx, owner, id, acceptMismatch, now, txId);
      outcome := Finish(tx, error);
    }

    /** The end of ExecTx: commit when the body returned no error, otherwise roll back. */
    method Finish(tx: Tx, error: Option<LedgerError>) returns (outcome: Outcome)
      requires tx.poisoned ==> error.Some?
      modifies this
      ensures TookEffect(outcome) ==> error.None? && state == tx.db
      ensures !TookEffect(outcome) ==> state == old(state)
      ensures error.Some? && !tx.poisoned ==> outcome == RolledBack(error.value)
    {
      if tx.poisoned {
        outcome := Aborted();
      } else if error.Some? {
        outcome := RolledBack(error.value);
      } else {
        var refused: bool := *;
        if refused {
          outcome := Aborted();
        } else {
          var answered: bool := *;
          state := tx.db;
          outcome := if answered then Committed else Unacknowledged;
        }
      }
    }

    method ProcessOnce(id: Uuid) returns (outcome: Outcome, step: Step, recorded: Option<LedgerError>)
      requires Inv(state)
      modifies this
      ensures GoodTry(ProcessOp(id), Try(old(state), step, recorded))
      ensures Explains(Try(old(state), step, recorded), TookEffect(outcome), state)
    {
      var txId := NewTxId(state.entries);
      step := Process(id, txId);
      var tx := new Tx(state);
      if id in state.orders {
        OrderFacts(state, id);
      }
      var error;
      recorded, error := ProcessInTx(tx, id, txId);
      outcome := Finish(tx, error);
    }

    method MoneyOnce(op: Operation) returns (outcome: Outcome, step: Step)
      requires Inv(state) && !Settles(op)
      modifies this
      ensures GoodTry(op, Try(old(state), step, None))
      ensures Explains(Try(old(state), step, None), TookEffect(outcome), state)
    {
      var txId := NewTxId(state.entries);
      var tx := new Tx(state);
      var error;
      step, error := MoneyInTx(tx, op, txId);
      outcome := Finish(tx, error);
    }

    method Attempt(op: Operation) returns (outcome: Outcome, step: Step, recorded: Option<LedgerError>)
      requires Inv(state)
      modifies this
      ensures GoodTry(op, Try(old(state), step, recorded))
      ensures Explains(Try(old(state), step, recorded), TookEffect(outcome), state)
    {
      match op {
        case ConfirmOp(owner, id, acceptMismatch) =>
          outcome, step, recorded := ConfirmOnce(owner, id, acceptMismatch);
        case ProcessOp(id) =>
          outcome, step, recorded := ProcessOnce(id);
        case _ =>
          outcome, step := MoneyOnce(op);
          recorded := None;
      }
    }

    /**
      Run an operation in a serializable transaction, again after a serialization failure, at most ten times.
      Whatever the other workers do meanwhile, the operation takes effect exactly once, from one state that they
      left, or not at all; a caller that is told of an error by the server knows neither. `reported` is the business
      error that a committed call hands to its caller; all attempts write the same variable and none clears it.
     */
    method ExecTx(op: Operation) returns (outcome: Outcome, reported: Option<LedgerError>, ghost trail: seq<Try>)
      requires Inv(state)
      modifies this
      ensures Inv(state)
      ensures |trail| <= 10 && (outcome.SerializationFailure? ==> |trail| == 10)
      ensures Attempts(op, trail) && trail[0].state == old(state) && Reachable(old(state), Final(trail).state)
      ensures Explains(Final(trail), TookEffect(outcome), state)
      ensures reported == LastRecorded(trail)
      ensures TookEffect(outcome) && Settles(op) ==>
                && op.id in state.orders
                && (reported.None? ==>
                      state.orders[op.id].status.Booked? || (op.ConfirmOp? && state.orders[op.id].status.Scheduled?))
                && (state.orders[op.id].status.Booked? ==> (reported.Some? <==> StaleFailure(trail)))
    {
      hide GoodTry, Reachable, StaleFailure;
      outcome, reported, trail := SerializationFailure, None, [];
      ReachableRefl(state);
      for attempt := 0 to MAX_ATTEMPTS
        invariant Inv(state) && Reachable(old(state), state) && |trail| == attempt && reported == LastRecorded(trail)
        invariant outcome.SerializationFailure?
        invariant attempt > 0 ==> Attempts(op, trail) && trail[0].state == old(state)
        invariant attempt > 0 ==> Reachable(Final(trail).state, state) && Reachable(old(state), Final(trail).state)
        invariant attempt == 0 ==> state == old(state)
        invariant attempt == MAX_ATTEMPTS ==> state == Final(trail).state
      {
        ghost var before, earlier := state, trail;
        var step, recorded;
        outcome, step, recorded := Attempt(op);
        if recorded.Some? {
          reported := recorded;
        }
        trail := trail + [Try(before, step, recorded)];
        AttemptsAdd(op, earlier, Try(before, step, recorded));
        if TookEffect(outcome) {
          CommitEnds(op, trail, state);
          return;
        }
        if outcome.RolledBack? {
          return;
        }
        ReachableRefl(state);
        if attempt < MAX_ATTEMPTS - 1 {
          var wait := RetryWait(attempt);
          var cancelled: bool := *;
          if cancelled {
            outcome := RolledBack(SqlError);
            return;
          }
          Interfere();
          ReachableTrans(old(state), before, state);
        }
      }
    }

    /**
      CancelPayment: the UPDATE commits by itself, the audit row is a second transaction. So the caller may be told of
      an error although the order is cancelled (`committed`), but never of success unless it is.
     */
    method CancelPayment(owner: Uuid, id: Uuid) returns (r: Result<PaymentOrder, LedgerError>, ghost committed: bool)
      requires Inv(state)
      modifies this
      ensures Inv(state)
      ensures state == if committed then Apply(old(state), Cancel(owner, id)) else old(state)
      ensures committed ==>
                && id in old(state).orders && old(state).orders[id].owner == owner
                && (old(state).orders[id].status == Draft || old(state).orders[id].status == AwaitingConfirmation
                    || old(state).orders[id].status == Scheduled)
                && state == old(state).(orders := old(state).orders[id := old(state).orders[id].(status := Cancelled)])
      ensures r.Success? ==> committed && r.value == state.orders[id]
      ensures r == Failure(InvalidState) ==>
                && !committed
                && (id !in state.orders || state.orders[id].owner != owner
                    || (state.orders[id].status != Draft && state.orders[id].status != AwaitingConfirmation
                        && state.orders[id].status != Scheduled))
    {
      var refused: bool := *;
      if refused {
        return Failure(SqlError), false;
      }
      if id !in state.orders || state.orders[id].owner != owner || !Cancellable(state.orders[id]) {
        return Failure(InvalidState), false;
      }
      StepKeeps(state, Cancel(owner, id));
      state := Apply(state, Cancel(owner, id));
      committed := true;
      var audited: bool := *;
      r := if audited then Success(state.orders[id]) else Failure(SqlError);
    }

    /** DELETE of an own, empty account without entries or orders: no entry and no order loses its account. */
    method DeleteAccount(account: Uuid, owner: Uuid) returns (ok: bool)
      requires Inv(state)
      modifies this
      ensures Inv(state)
      ensures ok ==>
                && account in old(state).accounts && old(state).accounts[account].owner == Some(owner)
                && old(state).accounts[account].balance == 0 && state.accounts == old(state).accounts - {account}
                && state == old(state).(accounts := state.accounts)
                && !HasEntries(state.entries, account) && Unreferenced(state, account)
      ensures !ok ==> state == old(state)
    {
      var refused: bool := *;
      if refused || account !in state.accounts || state.accounts[account].owner != Some(owner) || state.accounts[account].isSystem
         || state.accounts[account].balance != 0 || HasEntries(state.entries, account) || !Unreferenced(state, account)
         || account in state.pinned {
        return false;
      }
      StepKeeps(state, Step.DeleteAccount(account, owner));
      state := state.(accounts := state.accounts - {account});
      ok := true;
    }

    /** One auto-committed UPDATE. */
    method RecoverStalePayments(now: int) returns (ok: bool)
      requires Inv(state)
      modifies this
      ensures Inv(state)
      ensures state == if ok then Apply(old(state), RecoverStale(now, 300)) else old(state)
    {
      ok := *;
      if ok {
        StepKeeps(state, RecoverStale(now, STALE_SECONDS));
        state := Apply(state, RecoverStale(now, STALE_SECONDS));
      }
    }

    /** The earliest of some orders, by execution time and then by id. */
    method Earliest(ids: set<Uuid>) returns (first: Uuid)
      requires ids != {} && ids <= state.orders.Keys
      ensures first in ids && forall id :: id in ids && id != first ==> Earlier(state.orders, first, id)
    {
      first :| first in ids;
      var rest := ids - {first};
      while rest != {}
        invariant first in ids && rest <= ids - {first}
        invariant forall id :: id in ids && id != first && id !in rest ==> Earlier(state.orders, first, id)
        decreases |rest|
      {
        var id :| id in rest;
        rest := rest - {id};
        if Earlier(state.orders, id, first) {
          first := id;
        }
      }
    }

    /** The SELECT of the claim: the `limit` earliest scheduled orders whose time has come, apart from those that other
        workers have locked. */
    method SelectDue(limit: nat, now: int, locked: set<Uuid>) returns (batch: seq<Uuid>)
      ensures |batch| <= limit && Distinct(batch)
      ensures forall id :: id in batch ==>
                && id !in locked && id in state.orders
                && state.orders[id].status == Scheduled && state.orders[id].requestedAt <= now
      ensures forall id :: (&& id in state.orders && id !in locked && id !in batch
                            && state.orders[id].status == Scheduled && state.orders[id].requestedAt <= now) ==>
                |batch| == limit && forall other :: other in batch ==>
                  var first, later := state.orders[other], state.orders[id];
                  first.requestedAt < later.requestedAt || (first.requestedAt == later.requestedAt && other < id)
    {
      var rest := set id | id in state.orders && Due(state.orders[id], now) && id !in locked;
      batch := [];
      while rest != {} && |batch| < limit
        invariant |batch| <= limit && Distinct(batch)
        invariant forall id :: id in rest ==> id !in batch
        invariant forall id :: id in batch || id in rest <==> id in state.orders && Due(state.orders[id], now) && id !in locked
        invariant forall id, other :: id in rest && other in batch ==> Earlier(state.orders, other, id)
        decreases |rest|
      {
        var first := Earliest(rest);
        rest, batch := rest - {first}, batch + [first];
      }
    }

    /**
      Claim the `limit` earliest of the due orders, apart from those that other workers have locked. An unlocked due
      order is passed over only when the batch is full, and then it is later than every claimed one. Claimed orders are
      started and their attempts counted; all other rows stay as they are.
     */
    method ClaimDuePayments(limit: nat, now: int, locked: set<Uuid>) returns (batch: seq<Uuid>)
      requires Inv(state)
      modifies this
      ensures Inv(state) && |batch| <= limit && Distinct(batch)
      ensures state == Apply(old(state), ClaimDue(Members(batch), now))
      ensures forall id :: id in batch ==>
                && id !in locked && id in old(state).orders
                && old(state).orders[id].status == Scheduled && old(state).orders[id].requestedAt <= now
      ensures forall id :: (&& id in old(state).orders && id !in locked && id !in batch
                            && old(state).orders[id].status == Scheduled && old(state).orders[id].requestedAt <= now) ==>
                |batch| == limit && forall other :: other in batch ==>
                  var first, later := old(state).orders[other], old(state).orders[id];
                  first.requestedAt < later.requestedAt || (first.requestedAt == later.requestedAt && other < id)
      ensures state == old(state).(orders := state.orders) && state.orders.Keys == old(state).orders.Keys
      ensures forall id :: id in state.orders ==>
                var o := old(state).orders[id];
                state.orders[id] == if id in batch then o.(status := Processing, startedAt := Some(now), attempts := o.attempts + 1)
                                    else o
    {
      batch := SelectDue(limit, now, locked);
      StepKeeps(state, ClaimDue(Members(batch), now));
      ClaimedRows(state, Members(batch), now);
      state := Apply(state, ClaimDue(Members(batch), now));
    }

    /** processClaimedPayment: counted when no error is reported, which only a booking by this call can bring about. */
    method SettleClaimed(id: Uuid) returns (counted: bool, outcome: Outcome, ghost trail: seq<Try>)
      requires Inv(state)
      modifies this
      ensures Inv(state) && Reachable(old(state), state)
      ensures TookEffect(outcome) ==> SettledBy(old(state), state, id, trail)
      ensures counted <==> outcome.Committed? && LastRecorded(trail).None?
    {
      var reported;
      outcome, reported, trail := ExecTx(ProcessOp(id));
      counted := outcome.Committed? && reported.None?;
      if TookEffect(outcome) {
        SettledHere(old(state), state, id, trail);
      } else {
        assert Reachable(old(state), state);
      }
    }

    /**
      Two reads in two statements: the cached balance, then the sum over the entries. When both can be read,
      reconciliation succeeds exactly when nobody changed the account's sum between them.
     */
    method ReconcileAccount(account: Uuid) returns (ok: bool, readable: bool)
      requires Inv(state)
      modifies this
      ensures Inv(state) && Reachable(old(state), state)
      ensures ok <==> readable && account in old(state).accounts && Net(state.entries, account) == Net(old(state).entries, account)
    {
      readable := *;
      if !readable || account !in state.accounts {
        ReachableRefl(state);
        return false, readable;
      }
      var stored := state.accounts[account].balance;
      Interfere();
      readable := *;
      var calculated := Net(state.entries, account);
      ok := readable && stored == calculated;
    }
  }

  lemma ClaimedRows(s: State, batch: set<Uuid>, now: int)
    requires forall id :: id in batch ==> id in s.orders && s.orders[id].status == Scheduled && s.orders[id].requestedAt <= now
    ensures var t := Apply(s, ClaimDue(batch, now));
      && t == s.(orders := t.orders) && t.orders.Keys == s.orders.Keys
      && forall id :: id in t.orders ==>
           var o := s.orders[id];
           t.orders[id] == if id in batch then o.(status := Processing, startedAt := Some(now), attempts := o.attempts + 1) else o
  {
    assert Apply(s, ClaimDue(batch, now)).orders.Keys == s.orders.Keys;
  }

  function Members(ids: seq<Uuid>): set<Uuid> {
    set id | id in ids
  }

  predicate Distinct<T(==)>(s: seq<T>) {
    forall i, j :: 0 <= i < j < |s| ==> s[i] != s[j]
  }

  lemma NextIsNew<T>(s: seq<T>, i: nat)
    requires Distinct(s) && i < |s|
    ensures s[i] !in s[..i] && s[..i + 1] == s[..i] + [s[i]]
  {
  }

  /** ORDER BY requested_execution_at, id. */
  predicate Earlier(orders: map<Uuid, PaymentOrder>, a: Uuid, b: Uuid) {
    && a in orders && b in orders
    && (orders[a].requestedAt < orders[b].requestedAt || (orders[a].requestedAt == orders[b].requestedAt && a < b))
  }

  // ----- settling a batch -----

  /** Between the states `s` and `t`, a transaction with these attempts settled the order. */
  ghost predicate SettledBy(s: State, t: State, id: Uuid, trail: seq<Try>) {
    && Attempts(ProcessOp(id), trail)
    && Reachable(s, trail[0].state) && Reachable(s, Final(trail).state)
    && OrderIs(Final(trail).state, id, Processing)
    && Explains(Final(trail), true, Apply(Final(trail).state, Final(trail).step))
    && Reachable(Apply(Final(trail).state, Final(trail).step), t)
  }

  /** The attempts of a transaction that settled an order, and whether its commit was acknowledged. */
  datatype Settlement = Settlement(trail: seq<Try>, acknowledged: bool)

  ghost predicate AllSettled(s: State, t: State, done: map<Uuid, Settlement>) {
    forall id :: id in done ==> SettledBy(s, t, id, done[id].trail)
  }

  predicate NoErrorTold(d: Settlement) {
    d.acknowledged && LastRecorded(d.trail).None?
  }

  /** The orders for which no error is reported. */
  ghost function Counted(done: map<Uuid, Settlement>): set<Uuid> {
    set id | id in done && NoErrorTold(done[id])
  }

  /** The last attempt's own step booked the order. */
  predicate Books(trail: seq<Try>, id: Uuid) {
    trail != [] && OrderIs(Apply(Final(trail).state, Final(trail).step), id, Booked)
  }

  /** The orders that the transactions of the call booked. */
  ghost function BookedIn(done: map<Uuid, Settlement>): set<Uuid> {
    set id | id in done && Books(done[id].trail, id)
  }

  /** Why a booked order is missing from the count: the answer was lost, or it was the error of an aborted attempt. */
  predicate Missed(d: Settlement) {
    !d.acknowledged || StaleFailure(d.trail)
  }

  lemma CountedAdd(done: map<Uuid, Settlement>, id: Uuid, d: Settlement)
    requires id !in done
    ensures |Counted(done[id := d])| == |Counted(done)| + if NoErrorTold(d) then 1 else 0
  {
    var after := done[id := d];
    if NoErrorTold(d) {
      assert Counted(after) == Counted(done) + {id};
    } else {
      assert Counted(after) == Counted(done);
    }
  }

  lemma AllSettledLater(s: State, t: State, u: State, done: map<Uuid, Settlement>)
    requires AllSettled(s, t, done) && Reachable(t, u)
    ensures AllSettled(s, u, done)
  {
    forall id | id in done ensures SettledBy(s, u, id, done[id].trail) {
      var last := Final(done[id].trail);
      ReachableTrans(Apply(last.state, last.step), t, u);
    }
  }

  lemma SettledEarlier(r: State, s: State, t: State, id: Uuid, trail: seq<Try>)
    requires SettledBy(s, t, id, trail) && Reachable(r, s)
    ensures SettledBy(r, t, id, trail)
  {
    ReachableTrans(r, s, trail[0].state);
    ReachableTrans(r, s, Final(trail).state);
  }

  lemma SettledHere(s: State, t: State, id: Uuid, trail: seq<Try>)
    requires Attempts(ProcessOp(id), trail) && trail[0].state == s && Reachable(s, Final(trail).state)
    requires Explains(Final(trail), true, t)
    ensures SettledBy(s, t, id, trail) && Reachable(s, t)
  {
    assert GoodTry(ProcessOp(id), Final(trail));
    ReachableStep(s, Final(trail).state, Final(trail).step);
    ReachableRefl(s);
    ReachableRefl(t);
  }

  lemma NextSettled(origin: State, earlier: State, start: State, t: State, id: Uuid, outcome: Outcome, trail: seq<Try>,
                    done: map<Uuid, Settlement>) returns (next: map<Uuid, Settlement>)
    requires Reachable(origin, earlier) && Reachable(earlier, start) && Reachable(start, t)
    requires AllSettled(origin, earlier, done) && id !in done && (TookEffect(outcome) ==> SettledBy(start, t, id, trail))
    ensures next == if TookEffect(outcome) then done[id := Settlement(trail, outcome.Committed?)] else done
    ensures Reachable(origin, t) && AllSettled(origin, t, next)
    ensures |Counted(next)| == |Counted(done)| + if outcome.Committed? && LastRecorded(trail).None? then 1 else 0
  {
    hide Reachable, SettledBy;
    ReachableTrans(origin, earlier, start);
    ReachableTrans(origin, start, t);
    ReachableTrans(earlier, start, t);
    AllSettledLater(origin, earlier, t, done);
    next := done;
    if TookEffect(outcome) {
      var d := Settlement(trail, outcome.Committed?);
      SettledEarlier(origin, start, t, id, trail);
      CountedAdd(done, id, d);
      next := done[id := d];
    }
  }

  /** The count of a batch, in terms of what its transactions did. */
  lemma BatchResult(s: State, t: State, done: map<Uuid, Settlement>)
    requires AllSettled(s, t, done)
    ensures Counted(done) <= BookedIn(done)
    ensures forall id :: id in BookedIn(done) ==> OrderIs(t, id, Booked) && (id !in Counted(done) <==> Missed(done[id]))
  {
    forall id | id in done
      ensures id in Counted(done) ==> id in BookedIn(done)
      ensures id in BookedIn(done) ==> OrderIs(t, id, Booked) && (id !in Counted(done) <==> Missed(done[id]))
    {
      SettledResult(s, t, id, done[id].trail);
    }
  }

  lemma SettledResult(s: State, t: State, id: Uuid, trail: seq<Try>)
    requires SettledBy(s, t, id, trail)
    ensures LastRecorded(trail).None? ==> Books(trail, id)
    ensures Books(trail, id) ==> OrderIs(t, id, Booked) && (LastRecorded(trail).Some? <==> StaleFailure(trail))
  {
    var after := Apply(Final(trail).state, Final(trail).step);
    ReportedError(ProcessOp(id), trail, after);
    if OrderIs(after, id, Booked) {
      FinalInAll(after, t, {id});
    }
  }

  /** None of the orders that a call settles had been settled before the call. */
  lemma SettledOnce(s: State, t: State, id: Uuid, trail: seq<Try>)
    requires SettledBy(s, t, id, trail) && id in s.orders
    ensures !Terminal(s.orders[id].status)
  {
    var steps :| Final(trail).state == Run(s, steps);
    if Terminal(s.orders[id].status) {
      TerminalOrdersAreFinal(s, steps, id);
    }
  }

  lemma FinalInAll(s: State, t: State, ids: set<Uuid>)
    requires Reachable(s, t)
    requires forall id :: id in ids ==> OrderIs(s, id, Booked)
    ensures forall id :: id in ids ==> OrderIs(t, id, Booked)
  {
    var steps :| t == Run(s, steps);
    forall id | id in ids ensures OrderIs(t, id, Booked) {
      TerminalOrdersAreFinal(s, steps, id);
    }
  }
}
