/** The headline properties of the payment core, over every run of every number of workers. */
module BankRuns {
  import opened Wrappers
  import opened Posting
  import opened Lifecycle
  import opened Bank
  import opened BankInvariant
  import opened BankPreservation

  /** BOOKED iff the ledger transaction is set iff exactly one debit and one equal credit entry on two
      different accounts carry the order's id (and nothing else carries the transaction's id); otherwise none does. */
  lemma {:induction false} ExactlyOnceBooking(settlement: Uuid, steps: seq<Step>, id: Uuid)
    requires id in Run(Initial(settlement), steps).orders
    ensures var s := Run(Initial(settlement), steps);
      var o, entries := s.orders[id], EntriesOf(s.entries, id);
      && (o.status.Booked? <==> o.ledgerTx.Some?)
      && (o.status.Booked? <==> |entries| == 2)
      && (!o.status.Booked? <==> entries == [])
      && (o.status.Booked? ==>
            var destination := if o.beneficiary.Some? then o.beneficiary.value else settlement;
            && entries[0] == Entry(o.source, o.amount, 0, o.ledgerTx.value, Some(id))
            && entries[1] == Entry(destination, 0, o.amount, o.ledgerTx.value, Some(id))
            && o.source != destination && o.amount > 0
            && EntriesWithTx(s.entries, o.ledgerTx.value) == entries)
  {
    InitialInv(settlement);
    RunKeeps(Initial(settlement), steps);
    RunKeepsSettlement(Initial(settlement), steps);
    var s := Run(Initial(settlement), steps);
    assert OrderOk(s, id);
  }

  /** SUM(credits) - SUM(debits) equals both cached balances of every existing account, so reconciliation
      succeeds; every entry's account still exists. */
  lemma {:induction false} EveryAccountReconciles(settlement: Uuid, steps: seq<Step>)
    ensures var s := Run(Initial(settlement), steps);
      && (forall a :: a in s.accounts ==> s.accounts[a].balance == s.accounts[a].available == Net(s.entries, a))
      && (forall i :: 0 <= i < |s.entries| ==> s.entries[i].account in s.accounts)
  {
    InitialInv(settlement);
    RunKeeps(Initial(settlement), steps);
  }

  /** Money is neither created nor destroyed, and no customer account is ever negative. */
  lemma {:induction false} ConservationAndNoOverdraft(settlement: Uuid, steps: seq<Step>)
    ensures var s := Run(Initial(settlement), steps);
      && TotalBalance(s.accounts) == 0
      && (forall a :: a in s.accounts && a != settlement ==> s.accounts[a].balance >= 0 && s.accounts[a].available >= 0)
  {
    InitialInv(settlement);
    RunKeeps(Initial(settlement), steps);
    RunKeepsSettlement(Initial(settlement), steps);
  }

  lemma {:induction false} RunKeepsSettlement(s: State, steps: seq<Step>)
    ensures Run(s, steps).settlement == s.settlement
    decreases |steps|
  {
    if steps != [] {
      RunKeepsSettlement(Apply(s, steps[0]), steps[1..]);
    }
  }

  /** The outbox says what the payments say: a booked order has its debit event, and a credit event iff the
      beneficiary is an owned customer account, each with the balance just after that posting; a failed order
      has one failure event; every other order has none. */
  lemma {:induction false} OutboxAgreesWithPayments(settlement: Uuid, steps: seq<Step>, id: Uuid)
    requires id in Run(Initial(settlement), steps).orders
    ensures var s := Run(Initial(settlement), steps);
      var o, events := s.orders[id], EventsOf(s.outbox, id);
      && (o.status.Booked? ==>
            && 1 <= |events| <= 2
            && events[0] == Event(PaymentBooked, DebitSide, id, o.owner, o.source, BalanceAfter(s, id, o.source), o.amount)
            && (|events| == 2 <==> o.beneficiary.Some?)
            && (o.beneficiary.Some? ==>
                  var b := o.beneficiary.value;
                  && b in s.accounts && s.accounts[b].owner.Some?
                  && events[1] == Event(PaymentBooked, CreditSide, id, s.accounts[b].owner.value, b, BalanceAfter(s, id, b), o.amount)))
      && (o.status.Failed? ==>
            |events| == 1 && events[0] == Event(PaymentFailed, DebitSide, id, o.owner, o.source, events[0].balance, o.amount))
      && (!o.status.Booked? && !o.status.Failed? ==> events == [])
  {
    InitialInv(settlement);
    RunKeeps(Initial(settlement), steps);
    var s := Run(Initial(settlement), steps);
    assert OrderOk(s, id);
    RunKeepsOwned(Initial(settlement), steps);
  }

  /** Every customer account has an owner. */
  ghost predicate Owned(s: State) {
    forall a :: a in s.accounts && !s.accounts[a].isSystem ==> s.accounts[a].owner.Some?
  }

  lemma {:induction false} RunKeepsOwned(s: State, steps: seq<Step>)
    requires Inv(s) && Owned(s)
    ensures Owned(Run(s, steps))
    decreases |steps|
  {
    if steps != [] {
      StepKeeps(s, steps[0]);
      StepKeepsOwned(s, steps[0]);
      RunKeepsOwned(Apply(s, steps[0]), steps[1..]);
    }
  }

  lemma StepKeepsOwned(s: State, step: Step)
    requires Owned(s)
    ensures Owned(Apply(s, step))
  {
    if step.Confirm? || step.Process? {
      OrderStepKeepsOwned(s, step);
    } else if step.Deposit? || step.Withdraw? || step.Transfer? || step.CreateFundedCustomer? {
      MoneyStepKeepsOwned(s, step);
    }
  }

  lemma OrderStepKeepsOwned(s: State, step: Step)
    requires Owned(s) && (step.Confirm? || step.Process?)
    ensures Owned(Apply(s, step))
  {
  }

  lemma MoneyStepKeepsOwned(s: State, step: Step)
    requires Owned(s) && (step.Deposit? || step.Withdraw? || step.Transfer? || step.CreateFundedCustomer?)
    ensures Owned(Apply(s, step))
  {
  }

  // ----- lifecycle -----

  /** What never changes in an order row. */
  function Identity(o: PaymentOrder): PaymentOrder {
    o.(vopOverridden := false, status := Draft, rejectCode := None, ledgerTx := None, attempts := 0, startedAt := None)
  }

  ghost predicate Moved(o: PaymentOrder, p: PaymentOrder) {
    Identity(p) == Identity(o) && CommittedChange(o.status, p.status) && (Terminal(o.status) ==> p == o)
  }

  /** One committed transaction moves an order along declared transitions, keeps its identity, and leaves
      terminal orders alone. */
  lemma StepMovesOrder(s: State, step: Step, id: Uuid)
    requires id in s.orders
    ensures id in Apply(s, step).orders && Moved(s.orders[id], Apply(s, step).orders[id])
  {
    match step
    case Confirm(owner, other, acceptMismatch, now, txId) =>
      ConfirmMovesOrder(s, owner, other, acceptMismatch, now, txId, id);
    case Process(other, txId) =>
      SettleMovesOrder(s, id, txId);
    case _ =>
      QuietStepMovesOrder(s, step, id);
  }

  /** All other transactions change orders by a single guarded UPDATE, or not at all. */
  lemma QuietStepMovesOrder(s: State, step: Step, id: Uuid)
    requires id in s.orders && !step.Confirm? && !step.Process?
    ensures id in Apply(s, step).orders && Moved(s.orders[id], Apply(s, step).orders[id])
  {
    match step
    case Cancel(_, _) =>
    case ClaimDue(_, _) =>
    case RecoverStale(_, _) =>
    case _ =>
      OrdersUntouched(s, step, id);
  }

  lemma OrdersUntouched(s: State, step: Step, id: Uuid)
    requires id in s.orders && !step.Confirm? && !step.Process?
    requires !step.Cancel? && !step.ClaimDue? && !step.RecoverStale?
    ensures id in Apply(s, step).orders && Apply(s, step).orders[id] == s.orders[id]
  {
  }

  /** A confirmation of this order that finds it ready to be executed now. */
  predicate ConfirmsAtOnce(s: State, step: Step, id: Uuid) {
    && step.Confirm? && step.id == id && ConfirmReady(s, step.owner, id, step.acceptMismatch)
    && ConfirmTarget(s.orders[id], step.now).Processing? && !UsesTx(s.entries, step.txId)
  }

  /** The declared table is violated by one transaction only, and exactly then: an accepted confirmation of this very
      order that is to be executed at once. Every other change is one declared transition. */
  lemma {:induction false} OneEdgeUnlessConfirmedAtOnce(s: State, step: Step, id: Uuid)
    requires Inv(s) && id in s.orders
    ensures id in Apply(s, step).orders
    ensures var from, to := s.orders[id].status, Apply(s, step).orders[id].status;
      (from == to || Allowed(from, to)) <==> !ConfirmsAtOnce(s, step, id)
  {
    OneEdgeUnlessDecided(s, step, id);
    if ConfirmsAtOnce(s, step, id) {
      ConfirmDecides(s, step.owner, id, step.acceptMismatch, step.now, step.txId);
    } else if step.Confirm? && step.id == id {
      ConfirmLater(s, step, id);
    }
  }

  lemma ConfirmLater(s: State, step: Step, id: Uuid)
    requires step.Confirm? && step.id == id && id in s.orders && !ConfirmsAtOnce(s, step, id)
    ensures var t := Apply(s, step);
      t == s || (id in t.orders && s.orders[id].status.AwaitingConfirmation? && t.orders[id].status.Scheduled?)
  {
  }

  lemma OneEdgeUnlessDecided(s: State, step: Step, id: Uuid)
    requires id in s.orders
    ensures id in Apply(s, step).orders
    ensures var from, to := s.orders[id].status, Apply(s, step).orders[id].status;
      (from == to || Allowed(from, to))
      <==> !(step.Confirm? && step.id == id && from.AwaitingConfirmation? && (to.Booked? || to.Failed?))
  {
    StepMovesOrder(s, step, id);
    match step
    case Confirm(owner, other, acceptMismatch, now, txId) =>
      if other != id && ConfirmReady(s, owner, other, acceptMismatch) {
        var o := s.orders[other];
        SettleMovesOrder(s.(orders := s.orders[other := ConfirmRow(o, ConfirmTarget(o, now), !o.vop.Match?)]), other, txId);
      }
    case Process(other, txId) =>
      if other in s.orders {
        SettleMovesOrder(s, other, txId);
      }
    case _ =>
  }

  lemma ConfirmMovesOrder(s: State, owner: Uuid, other: Uuid, acceptMismatch: bool, now: int, txId: Uuid, id: Uuid)
    requires id in s.orders
    ensures var t := Apply(s, Confirm(owner, other, acceptMismatch, now, txId));
      id in t.orders && Moved(s.orders[id], t.orders[id])
  {
    if ConfirmReady(s, owner, other, acceptMismatch) {
      var o := s.orders[other];
      SettleMovesOrder(s.(orders := s.orders[other := ConfirmRow(o, ConfirmTarget(o, now), !o.vop.Match?)]), other, txId);
    }
  }

  lemma SettleMovesOrder(s: State, id: Uuid, txId: Uuid)
    requires id in s.orders
    ensures var o, settled := s.orders[id], Settle(s, id, txId);
      settled.Some? ==>
        && settled.value.orders.Keys == s.orders.Keys
        && (forall other :: other in s.orders && other != id ==> settled.value.orders[other] == s.orders[other])
        && var p := settled.value.orders[id];
        && o.status.Processing? && Identity(p) == Identity(o) && (p == o || p.status.Booked? || p.status.Failed?)
        && (o.ledgerTx.None? ==> p.status.Booked? || p.status.Failed?)
  {
  }

  /** BOOKED, FAILED and CANCELLED are final: no run changes such a row in any way. */
  lemma {:induction false} TerminalOrdersAreFinal(s: State, steps: seq<Step>, id: Uuid)
    requires id in s.orders
    requires s.orders[id].status == Booked || s.orders[id].status == Failed || s.orders[id].status == Cancelled
    ensures id in Run(s, steps).orders && Run(s, steps).orders[id] == s.orders[id]
    decreases |steps|
  {
    if steps != [] {
      StepMovesOrder(s, steps[0], id);
      TerminalOrdersAreFinal(Apply(s, steps[0]), steps[1..], id);
    }
  }

  /** Orders are never deleted, and only the columns of their progress ever change. */
  lemma {:induction false} RunKeepsIdentity(s: State, steps: seq<Step>, id: Uuid)
    requires id in s.orders
    ensures id in Run(s, steps).orders && Identity(Run(s, steps).orders[id]) == Identity(s.orders[id])
    ensures var o, p := s.orders[id], Run(s, steps).orders[id];
      p == o.(vopOverridden := p.vopOverridden, status := p.status, rejectCode := p.rejectCode, ledgerTx := p.ledgerTx,
              attempts := p.attempts, startedAt := p.startedAt)
    decreases |steps|
  {
    if steps != [] {
      StepMovesOrder(s, steps[0], id);
      RunKeepsIdentity(Apply(s, steps[0]), steps[1..], id);
    }
  }

  lemma StepGrowsLogs(s: State, step: Step)
    ensures s.entries <= Apply(s, step).entries && s.outbox <= Apply(s, step).outbox
  {
    match step
    case Confirm(_, _, _, _, _) =>
    case Process(_, _) =>
    case _ =>
  }

  /** Both logs are append-only. */
  lemma {:induction false} LogsOnlyGrow(s: State, steps: seq<Step>)
    ensures s.entries <= Run(s, steps).entries && s.outbox <= Run(s, steps).outbox
    decreases |steps|
  {
    if steps != [] {
      StepGrowsLogs(s, steps[0]);
      LogsOnlyGrow(Apply(s, steps[0]), steps[1..]);
    }
  }

  /** No committed PROCESSING order is stuck: it carries a start time and no ledger transaction, and stale
      recovery frees it exactly when its claim is older than the limit. */
  lemma {:induction false} StaleRecoveryFrees(settlement: Uuid, steps: seq<Step>, id: Uuid, now: int, seconds: int)
    requires id in Run(Initial(settlement), steps).orders
    requires Run(Initial(settlement), steps).orders[id].status.Processing?
    ensures var s := Run(Initial(settlement), steps);
      && s.orders[id].ledgerTx.None? && s.orders[id].startedAt.Some?
      && (Apply(s, RecoverStale(now, seconds)).orders[id].status.Scheduled? <==> s.orders[id].startedAt.value + seconds < now)
  {
    InitialInv(settlement);
    RunKeeps(Initial(settlement), steps);
    ClaimedCanBeFreed(Run(Initial(settlement), steps), id);
    RecoveryFreesIff(Run(Initial(settlement), steps), id, now, seconds);
  }

  lemma RecoveryFreesIff(s: State, id: Uuid, now: int, seconds: int)
    requires id in s.orders && s.orders[id].status.Processing? && s.orders[id].ledgerTx.None? && s.orders[id].startedAt.Some?
    ensures id in Apply(s, RecoverStale(now, seconds)).orders
    ensures Apply(s, RecoverStale(now, seconds)).orders[id].status.Scheduled? <==> s.orders[id].startedAt.value + seconds < now
  {
  }

  lemma ClaimedCanBeFreed(s: State, id: Uuid)
    requires Inv(s) && id in s.orders && s.orders[id].status.Processing?
    ensures s.orders[id].ledgerTx.None? && s.orders[id].startedAt.Some?
  {
    assert OrderOk(s, id) && Recoverable(s.orders[id]);
  }

  /** At most one order per owner and idempotency key. */
  lemma {:induction false} OneOrderPerKey(settlement: Uuid, steps: seq<Step>, i: Uuid, j: Uuid)
    requires var s := Run(Initial(settlement), steps);
      && i in s.orders && j in s.orders
      && s.orders[i].owner == s.orders[j].owner && s.orders[i].key == s.orders[j].key
    ensures i == j
  {
    InitialInv(settlement);
    RunKeeps(Initial(settlement), steps);
    assert SameKey(Run(Initial(settlement), steps).orders, i, j);
  }

  /** Two account ids with the same IBAN. */
  predicate SameIban(accounts: map<Uuid, Account>, a: Uuid, b: Uuid) {
    a in accounts && b in accounts && accounts[a].iban == accounts[b].iban
  }

  ghost predicate UniqueIbans(accounts: map<Uuid, Account>) {
    forall a, b :: SameIban(accounts, a, b) ==> a == b
  }

  /** No transaction changes an IBAN, and a new account has one that was free. */
  lemma WhoHasIban(s: State, step: Step, a: Uuid)
    requires s.accounts.Keys <= s.issued && a in Apply(s, step).accounts
    ensures var t := Apply(s, step);
      || (a in s.accounts && t.accounts[a].iban == s.accounts[a].iban)
      || (a !in s.accounts && IbanFree(s, t.accounts[a].iban)
          && ((step.CreateAccount? && step.account == a) || (step.CreateFundedCustomer? && step.account == a)))
  {
    if step.Confirm? || step.Process? {
      SettlementKeepsIban(s, step, a);
    }
  }

  lemma SettlementKeepsIban(s: State, step: Step, a: Uuid)
    requires (step.Confirm? || step.Process?) && a in Apply(s, step).accounts
    ensures a in s.accounts && Apply(s, step).accounts[a].iban == s.accounts[a].iban
  {
  }

  lemma {:induction false} RunKeepsIbans(s: State, steps: seq<Step>)
    requires Inv(s) && UniqueIbans(s.accounts)
    ensures UniqueIbans(Run(s, steps).accounts)
    decreases |steps|
  {
    if steps != [] {
      var t := Apply(s, steps[0]);
      StepKeeps(s, steps[0]);
      forall a, b | SameIban(t.accounts, a, b) ensures a == b {
        WhoHasIban(s, steps[0], a);
        WhoHasIban(s, steps[0], b);
        assert a in s.accounts && b in s.accounts ==> SameIban(s.accounts, a, b);
      }
      RunKeepsIbans(t, steps[1..]);
    }
  }

  /** At most one account per IBAN. */
  lemma {:induction false} OneAccountPerIban(settlement: Uuid, steps: seq<Step>, a: Uuid, b: Uuid)
    requires var accounts := Run(Initial(settlement), steps).accounts;
      a in accounts && b in accounts && accounts[a].iban == accounts[b].iban
    ensures a == b
  {
    InitialInv(settlement);
    RunKeepsIbans(Initial(settlement), steps);
    assert SameIban(Run(Initial(settlement), steps).accounts, a, b);
  }

  /** One order row and one failure event of that order are all that changed. */
  ghost predicate FailsOnly(s: State, t: State, id: Uuid)
    requires id in s.orders
  {
    var o := s.orders[id];
    && id in t.orders && t.orders[id].status.Failed? && o.source in s.accounts
    && t == s.(orders := s.orders[id := t.orders[id]],
               outbox := s.outbox + [Event(PaymentFailed, DebitSide, id, o.owner, o.source, s.accounts[o.source].balance, o.amount)])
  }

  /** Whichever transaction turns an order FAILED confirmed or processed that order, and changes its row and adds its
      failure event, and nothing else. */
  lemma {:induction false} FailureMovesNoMoney(s: State, step: Step, id: Uuid)
    requires id in s.orders && id in Apply(s, step).orders
    requires Apply(s, step).orders[id].status.Failed? && !s.orders[id].status.Failed?
    ensures FailsOnly(s, Apply(s, step), id)
    ensures (step.Confirm? && step.id == id && s.orders[id].status.AwaitingConfirmation?)
         || (step.Process? && step.id == id && s.orders[id].status.Processing?)
  {
    match step
    case Confirm(owner, other, acceptMismatch, now, txId) =>
      if ConfirmReady(s, owner, other, acceptMismatch) {
        var o := s.orders[other];
        var s1 := s.(orders := s.orders[other := ConfirmRow(o, ConfirmTarget(o, now), !o.vop.Match?)]);
        FailedSettlement(s1, other, txId, id);
        assert s1.orders[id := Apply(s, step).orders[id]] == s.orders[id := Apply(s, step).orders[id]];
      }
    case Process(other, txId) =>
      FailedSettlement(s, other, txId, id);
    case _ =>
  }

  lemma FailedSettlement(s: State, other: Uuid, txId: Uuid, id: Uuid)
    requires other in s.orders && id in s.orders && !s.orders[id].status.Failed?
    requires Settle(s, other, txId).Some? && Settle(s, other, txId).value.orders[id].status.Failed?
    ensures other == id && s.orders[id].status.Processing? && FailsOnly(s, Settle(s, other, txId).value, id)
  {
    SettleMovesOrder(s, other, txId);
  }

  // ----- what the money operations do, and when -----

  /** `amount` goes from one account to another, in both cached balances; nobody else's money moves. */
  ghost predicate MoneyWent(s: State, t: State, from: Uuid, to: Uuid, amount: int) {
    && t.accounts.Keys == s.accounts.Keys && from in s.accounts && to in s.accounts && from != to && amount > 0
    && (forall a :: a in s.accounts ==>
          var change := if a == from then -amount else if a == to then amount else 0;
          t.accounts[a] == s.accounts[a].(balance := s.accounts[a].balance + change,
                                          available := s.accounts[a].available + change))
    && |t.entries| == |s.entries| + 2 && s.entries <= t.entries
  }

  lemma PostMoves(s: State, first: Entry, second: Entry)
    requires first.account in s.accounts && second.account in s.accounts && first.account != second.account
    requires LegalEntry(first) && LegalEntry(second) && first.debit == second.credit && first.credit == second.debit
    ensures var t := Post(s, first, second);
      if first.debit > 0 then MoneyWent(s, t, first.account, second.account, first.debit)
      else MoneyWent(s, t, second.account, first.account, first.credit)
  {
  }

  /** An active customer account in the settlement currency. */
  predicate Open(s: State, a: Uuid) {
    && a in s.accounts && s.settlement in s.accounts && a != s.settlement
    && s.accounts[a].status.Active? && s.accounts[a].currency == s.accounts[s.settlement].currency
  }

  lemma DepositMovesIff(s: State, account: Uuid, amount: int, txId: Uuid)
    requires Inv(s) && !UsesTx(s.entries, txId)
    ensures var t := Apply(s, Deposit(account, amount, txId));
      if Open(s, account) && amount > 0 then
        MoneyWent(s, t, s.settlement, account, amount) && t.orders == s.orders && t.outbox == s.outbox
      else t == s
  {
    if Open(s, account) && amount > 0 {
      PostMoves(s, Entry(account, 0, amount, txId, None), Entry(s.settlement, amount, 0, txId, None));
    }
  }

  lemma WithdrawMovesIff(s: State, account: Uuid, amount: int, txId: Uuid)
    requires Inv(s) && !UsesTx(s.entries, txId)
    ensures var t := Apply(s, Withdraw(account, amount, txId));
      if Open(s, account) && 0 < amount <= s.accounts[account].balance then
        MoneyWent(s, t, account, s.settlement, amount) && t.orders == s.orders && t.outbox == s.outbox
      else t == s
  {
    if Open(s, account) && amount > 0 {
      PostMoves(s, Entry(account, amount, 0, txId, None), Entry(s.settlement, 0, amount, txId, None));
    }
  }

  /** Two different, active accounts of the requester in one currency, and enough money. */
  predicate OwnTransfer(s: State, owner: Uuid, from: Uuid, to: Uuid, amount: int) {
    && from in s.accounts && to in s.accounts && from != to && from != s.settlement && to != s.settlement
    && s.accounts[from].owner == s.accounts[to].owner == Some(owner)
    && s.accounts[from].status.Active? && s.accounts[to].status.Active?
    && s.accounts[from].currency == s.accounts[to].currency
    && 0 < amount <= s.accounts[from].balance
  }

  lemma TransferAcceptedIff(s: State, owner: Uuid, from: Uuid, to: Uuid, amount: int)
    requires Rooted(s)
    ensures TransferError(s, owner, from, to, amount).None? <==> OwnTransfer(s, owner, from, to, amount)
  {
  }

  lemma TransferMovesIff(s: State, owner: Uuid, from: Uuid, to: Uuid, amount: int, txId: Uuid)
    requires Inv(s) && !UsesTx(s.entries, txId)
    ensures var t := Apply(s, Transfer(owner, from, to, amount, txId));
      if OwnTransfer(s, owner, from, to, amount) then
        MoneyWent(s, t, from, to, amount) && t.orders == s.orders && t.outbox == s.outbox
      else t == s
  {
    TransferAcceptedIff(s, owner, from, to, amount);
    if OwnTransfer(s, owner, from, to, amount) {
      PostMoves(s, Entry(from, amount, 0, txId, None), Entry(to, 0, amount, txId, None));
    }
  }

  /** Why a deposit or a withdrawal is refused. */
  lemma ExternalErrorMeans(s: State, account: Uuid, amount: int)
    requires Inv(s)
    ensures match DepositError(s, account)
            case None => Open(s, account)
            case Some(e) =>
              match e
              case NoRows => account !in s.accounts
              case SystemAccount => account == s.settlement
              case AccountBlocked => account in s.accounts && !s.accounts[account].status.Active?
              case CurrencyMismatch => account in s.accounts && s.accounts[account].currency != s.accounts[s.settlement].currency
              case _ => false
    ensures DepositError(s, account).None? ==>
              WithdrawError(s, account, amount) == if s.accounts[account].balance < amount then Some(InsufficientFunds) else None
    ensures DepositError(s, account).Some? ==> WithdrawError(s, account, amount) == DepositError(s, account)
  {
  }

  /** The reason for which a claimed order of a good state cannot be booked. */
  function Obstacle(s: State, o: PaymentOrder): Option<string>
    requires o.source in s.accounts && Destination(s, o) in s.accounts
  {
    var source, destination := s.accounts[o.source], s.accounts[Destination(s, o)];
    if !source.status.Active? || !destination.status.Active? then Some("AC06")
    else if source.currency != destination.currency then Some("CURR")
    else if source.balance < o.amount then Some("AM04")
    else None
  }

  lemma ProcessingFacts(s: State, id: Uuid)
    requires CoreInv(s) && id in s.orders && s.orders[id].status.Processing?
    ensures var o := s.orders[id];
      && o.source in s.accounts && Destination(s, o) in s.accounts && Destination(s, o) != o.source
      && o.ledgerTx.None? && o.amount > 0 && Deliverable(s, o.owner, o.source) && o.owner != NIL
      && (o.beneficiary.Some? && CreditDue(s, o) ==> Deliverable(s, s.accounts[o.beneficiary.value].owner.value, o.beneficiary.value))
  {
    assert OrderOk(s, id);
  }

  /** Processing a claimed order always decides it: it moves the money and books the order when nothing is in the
      way, and otherwise records the obstacle and moves nothing. */
  lemma ProcessDecides(s: State, id: Uuid, txId: Uuid)
    requires CoreInv(s) && id in s.orders && s.orders[id].status.Processing? && !UsesTx(s.entries, txId)
    ensures var o, t := s.orders[id], Apply(s, Process(id, txId));
      var destination := if o.beneficiary.Some? then o.beneficiary.value else s.settlement;
      && o.source in s.accounts && destination in s.accounts && id in t.orders
      && t.orders.Keys == s.orders.Keys
      && (forall other :: other in s.orders && other != id ==> t.orders[other] == s.orders[other])
      && match Obstacle(s, o)
         case None => t.orders[id] == o.(status := Booked, ledgerTx := Some(txId), rejectCode := None)
                      && MoneyWent(s, t, o.source, destination, o.amount)
         case Some(code) => t.orders[id] == o.(status := Failed, rejectCode := Some(code))
                            && t.accounts == s.accounts && t.entries == s.entries
  {
    ProcessingFacts(s, id);
    ObstacleIsError(s, id);
    if Obstacle(s, s.orders[id]).None? {
      BookingDelivers(s, id, txId);
      ProcessBooks(s, id, txId);
    } else {
      ProcessFails(s, id, txId);
    }
  }

  /** So does confirming an order that is to be executed now, in a single transaction. */
  lemma {:induction false} ConfirmDecides(s: State, owner: Uuid, id: Uuid, acceptMismatch: bool, now: int, txId: Uuid)
    requires CoreInv(s) && ConfirmReady(s, owner, id, acceptMismatch) && ConfirmTarget(s.orders[id], now).Processing?
    requires !UsesTx(s.entries, txId)
    ensures var o, t := s.orders[id], Apply(s, Confirm(owner, id, acceptMismatch, now, txId));
      var destination := if o.beneficiary.Some? then o.beneficiary.value else s.settlement;
      && o.source in s.accounts && destination in s.accounts && id in t.orders
      && match Obstacle(s, o)
         case None => t.orders[id].status.Booked? && t.orders[id].ledgerTx == Some(txId)
                      && MoneyWent(s, t, o.source, destination, o.amount)
         case Some(code) => t.orders[id].status.Failed? && t.orders[id].rejectCode == Some(code)
                            && t.accounts == s.accounts && t.entries == s.entries
  {
    var o := s.orders[id];
    var s1 := s.(orders := s.orders[id := ConfirmRow(o, Processing, !o.vop.Match?)]);
    ConfirmedKeepsCore(s, id);
    ProcessDecides(s1, id, txId);
    ConfirmIsProcess(s, owner, id, acceptMismatch, now, txId);
    if Obstacle(s, o).None? {
      MoneyFrame(s, s1, Apply(s1, Process(id, txId)), o.source, Destination(s, o), o.amount);
    }
  }

  lemma MoneyFrame(s: State, s1: State, t: State, from: Uuid, to: Uuid, amount: int)
    requires s1.accounts == s.accounts && s1.entries == s.entries && MoneyWent(s1, t, from, to, amount)
    ensures MoneyWent(s, t, from, to, amount)
  {
  }

  lemma ConfirmedKeepsCore(s: State, id: Uuid)
    requires CoreInv(s) && id in s.orders && s.orders[id].status.AwaitingConfirmation?
    ensures var o := s.orders[id];
      var s1 := s.(orders := s.orders[id := ConfirmRow(o, Processing, !o.vop.Match?)]);
      && CoreInv(s1)
      && o.source in s.accounts && Destination(s, o) in s.accounts && Obstacle(s1, s1.orders[id]) == Obstacle(s, o)
  {
    var o := s.orders[id];
    assert OrderOk(s, id);
    QuietKeeps(s, s.orders[id := ConfirmRow(o, Processing, !o.vop.Match?)]);
  }

  lemma ConfirmIsProcess(s: State, owner: Uuid, id: Uuid, acceptMismatch: bool, now: int, txId: Uuid)
    requires ConfirmReady(s, owner, id, acceptMismatch) && ConfirmTarget(s.orders[id], now).Processing?
    requires !UsesTx(s.entries, txId)
    requires var s1 := s.(orders := s.orders[id := ConfirmRow(s.orders[id], Processing, !s.orders[id].vop.Match?)]);
      Apply(s1, Process(id, txId)) != s1
    ensures var s1 := s.(orders := s.orders[id := ConfirmRow(s.orders[id], Processing, !s.orders[id].vop.Match?)]);
      Apply(s, Confirm(owner, id, acceptMismatch, now, txId)) == Apply(s1, Process(id, txId))
  {
  }

  lemma ProcessBooks(s: State, id: Uuid, txId: Uuid)
    requires id in s.orders && s.orders[id].status.Processing? && s.orders[id].ledgerTx.None? && !UsesTx(s.entries, txId)
    requires s.orders[id].source in s.accounts && Destination(s, s.orders[id]) in s.accounts
    requires s.orders[id].source != Destination(s, s.orders[id]) && s.orders[id].amount > 0
    requires BookingError(s, s.orders[id]).None?
    requires BookedEvents(BookedState(s, id, s.orders[id], txId), id, s.orders[id]).Some?
    ensures var o, t := s.orders[id], Apply(s, Process(id, txId));
      && t.orders == s.orders[id := o.(status := Booked, ledgerTx := Some(txId), rejectCode := None)]
      && MoneyWent(s, t, o.source, Destination(s, o), o.amount)
  {
    var o := s.orders[id];
    var posted := Post(s, DebitEntry(s, id, o, txId), CreditEntry(s, id, o, txId));
    PostMoves(s, DebitEntry(s, id, o, txId), CreditEntry(s, id, o, txId));
    assert Settle(s, id, txId).Some?;
    MovedFrame(s, posted, Apply(s, Process(id, txId)), o.source, Destination(s, o), o.amount);
  }

  lemma MovedFrame(s: State, posted: State, t: State, from: Uuid, to: Uuid, amount: int)
    requires MoneyWent(s, posted, from, to, amount) && t.accounts == posted.accounts && t.entries == posted.entries
    ensures MoneyWent(s, t, from, to, amount)
  {
  }

  lemma ProcessFails(s: State, id: Uuid, txId: Uuid)
    requires id in s.orders && s.orders[id].status.Processing? && s.orders[id].ledgerTx.None? && !UsesTx(s.entries, txId)
    requires Deliverable(s, s.orders[id].owner, s.orders[id].source) && BookingError(s, s.orders[id]).Some?
    ensures var o, t := s.orders[id], Apply(s, Process(id, txId));
      && t.orders == s.orders[id := o.(status := Failed, rejectCode := Some(RejectCode(BookingError(s, o).value)))]
      && t.accounts == s.accounts && t.entries == s.entries
  {
  }

  lemma ObstacleIsError(s: State, id: Uuid)
    requires CoreInv(s) && id in s.orders && s.orders[id].status.Processing?
    ensures var o := s.orders[id];
      && o.source in s.accounts && Destination(s, o) in s.accounts
      && match BookingError(s, o)
         case None => Obstacle(s, o).None?
         case Some(e) => Obstacle(s, o) == Some(RejectCode(e))
  {
    ProcessingFacts(s, id);
  }

  lemma BookingDelivers(s: State, id: Uuid, txId: Uuid)
    requires CoreInv(s) && id in s.orders && s.orders[id].status.Processing?
    ensures BookedEvents(BookedState(s, id, s.orders[id], txId), id, s.orders[id]).Some?
  {
    ProcessingFacts(s, id);
  }

  /** Reconciliation reads the balance and the entries in two statements. A deposit that commits between them makes
      the two disagree, although both are right at all times. */
  lemma DepositBetweenReads(s: State, account: Uuid, amount: int, txId: Uuid)
    requires Inv(s) && account in s.accounts
    requires DepositError(s, account).None? && amount > 0 && !UsesTx(s.entries, txId)
    ensures Net(Apply(s, Deposit(account, amount, txId)).entries, account) == s.accounts[account].balance + amount
  {
    var first, second := Entry(account, 0, amount, txId, None), Entry(s.settlement, amount, 0, txId, None);
    NetAppend2(s.entries, first, second, account);
  }
}
