/**
  The committed database of the payment core, the SQL statements that write it, and the atomic
  transactions ("steps") built from them. Every step is a function, so a run is a sequence of steps.
 */
module Bank {
  import opened Wrappers
  import opened Posting
  import opened Lifecycle

  datatype Account = Account(
    owner: Option<Uuid>, isSystem: bool, iban: string, currency: string, status: AccountStatus, balance: int, available: int)

  datatype Entry = Entry(account: Uuid, debit: int, credit: int, txId: Uuid, order: Option<Uuid>)

  datatype ScheduleType = Immediate | AtTime | Standing
  datatype PaymentKind = Umbuchung | Internal | Sepa | SepaInstant
  datatype Vop = Match | CloseMatch | NoMatch | Other

  datatype PaymentOrder = PaymentOrder(
    owner: Uuid, source: Uuid, beneficiary: Option<Uuid>,
    name: string, iban: string, bic: Option<string>, amount: int, kind: PaymentKind, schedule: ScheduleType,
    purpose: Option<string>, reference: Option<string>, key: string, requestedAt: int,
    vop: Vop, vopOverridden: bool, status: Status, rejectCode: Option<string>,
    ledgerTx: Option<Uuid>, attempts: nat, startedAt: Option<int>)

  datatype EventKind = PaymentBooked | PaymentFailed
  datatype Direction = DebitSide | CreditSide

  /** An outbox row; the payload is reduced to the recipient, the account and its balance. */
  datatype Event = Event(
    kind: EventKind, direction: Direction, order: Uuid, recipient: Uuid, account: Uuid, balance: int, amount: int)

  /** `issued` holds every account id ever generated, since a generated UUID never repeats; `pinned` the accounts to
      which rows of other tables refer, whose foreign keys forbid their deletion. */
  datatype State = State(
    settlement: Uuid, users: set<Uuid>, issued: set<Uuid>, pinned: set<Uuid>, accounts: map<Uuid, Account>,
    entries: seq<Entry>, orders: map<Uuid, PaymentOrder>, outbox: seq<Event>)

  const SETTLEMENT_IBAN := "DE93999999990000000001"

  /** The freshly migrated database: only the settlement account. */
  function Initial(settlement: Uuid): State {
    State(settlement, {}, {settlement}, {},
          map[settlement := Account(None, true, SETTLEMENT_IBAN, "EUR", Active, 0, 0)], [], map[], [])
  }

  // ----- entries and balances -----

  function Delta(e: Entry): int {
    e.credit - e.debit
  }

  /** The CHECK constraints on an entry row. */
  predicate LegalEntry(e: Entry) {
    (e.debit > 0 && e.credit == 0) || (e.debit == 0 && e.credit > 0)
  }

  /** SUM(credit) - SUM(debit) over the entries of one account. */
  function Net(entries: seq<Entry>, account: Uuid): int {
    if entries == [] then 0
    else
      var last := entries[|entries| - 1];
      Net(entries[..|entries| - 1], account) + if last.account == account then Delta(last) else 0
  }

  predicate HasEntries(entries: seq<Entry>, account: Uuid) {
    exists i :: 0 <= i < |entries| && entries[i].account == account
  }

  predicate UsesTx(entries: seq<Entry>, txId: Uuid) {
    exists i :: 0 <= i < |entries| && entries[i].txId == txId
  }

  function AddToBalance(accounts: map<Uuid, Account>, id: Uuid, amount: int): map<Uuid, Account> {
    if id in accounts then
      accounts[id := accounts[id].(balance := accounts[id].balance + amount, available := accounts[id].available + amount)]
    else accounts
  }

  /** Two entries and the two cached balances they change. */
  function Post(s: State, first: Entry, second: Entry): State {
    s.(entries := s.entries + [first, second],
       accounts := AddToBalance(AddToBalance(s.accounts, first.account, Delta(first)), second.account, Delta(second)))
  }

  // ----- guarded UPDATEs of one order row -----

  function ConfirmRow(o: PaymentOrder, target: Status, overridden: bool): (p: PaymentOrder)
    ensures p == o || Allowed(o.status, p.status)
         || target.Draft? || target.Booked? || target.Failed? || target.AwaitingConfirmation?
  {
    if o.status.AwaitingConfirmation? then o.(status := target, vopOverridden := overridden) else o
  }

  predicate Cancellable(o: PaymentOrder) {
    o.status.Draft? || o.status.AwaitingConfirmation? || o.status.Scheduled?
  }

  function CancelRow(o: PaymentOrder): (p: PaymentOrder)
    ensures p == o || Allowed(o.status, p.status)
  {
    if Cancellable(o) then o.(status := Cancelled) else o
  }

  predicate Due(o: PaymentOrder, now: int) {
    o.status.Scheduled? && o.requestedAt <= now
  }

  function ClaimRow(o: PaymentOrder, now: int): (p: PaymentOrder)
    ensures p == o || Allowed(o.status, p.status)
  {
    if Due(o, now) then o.(status := Processing, startedAt := Some(now), attempts := o.attempts + 1) else o
  }

  /** `processing_started_at < now - stale` is NULL, hence not true, without a start time. */
  predicate Stale(o: PaymentOrder, now: int, seconds: int) {
    o.status.Processing? && o.ledgerTx.None? && o.startedAt.Some? && o.startedAt.value < now - seconds
  }

  function RecoverRow(o: PaymentOrder, now: int, seconds: int): (p: PaymentOrder)
    ensures p == o || Allowed(o.status, p.status)
  {
    if Stale(o, now, seconds) then o.(status := Scheduled, startedAt := None) else o
  }

  /** The seventh guarded status write; no code calls it. */
  function MarkProcessingRow(o: PaymentOrder, now: int): (p: PaymentOrder)
    ensures p == o || Allowed(o.status, p.status)
  {
    if o.status.AwaitingConfirmation? || o.status.Scheduled?
    then o.(status := Processing, startedAt := Some(now), attempts := o.attempts + 1) else o
  }

  function BookRow(o: PaymentOrder, txId: Uuid): (p: PaymentOrder)
    ensures p == o || Allowed(o.status, p.status)
  {
    if o.status.Processing? && o.ledgerTx.None? then
      o.(status := Booked, ledgerTx := Some(txId), rejectCode := None)
    else o
  }

  function FailRow(o: PaymentOrder, code: string): (p: PaymentOrder)
    ensures p == o || Allowed(o.status, p.status)
  {
    if o.status.Processing? then o.(status := Failed, rejectCode := Some(code)) else o
  }

  function RejectCode(e: LedgerError): string {
    match e
    case InsufficientFunds => "AM04"
    case AccountBlocked => "AC06"
    case CurrencyMismatch => "CURR"
    case _ => "TECH"
  }

  // ----- booking -----

  function Destination(s: State, o: PaymentOrder): Uuid {
    o.beneficiary.GetOr(s.settlement)
  }

  function SnapshotOf(id: Uuid, a: Account, available: int): AccountSnapshot {
    AccountSnapshot(id, a.owner, a.currency, a.status, available, a.isSystem)
  }

  /** The business reason for which a claimed order cannot be booked, if there is one. */
  function BookingError(s: State, o: PaymentOrder): Option<LedgerError> {
    var d := Destination(s, o);
    if !o.status.Processing? then Some(InvalidState)
    else if o.amount <= 0 then Some(InvalidAmount)
    else if o.beneficiary.None? && s.settlement !in s.accounts then Some(NoRows)
    else if d == o.source then Some(SameAccountTransfer)
    else if o.source !in s.accounts || d !in s.accounts then Some(AccountNotFound)
    else
      match PlanCustomerTransfer(o.owner, SnapshotOf(o.source, s.accounts[o.source], s.accounts[o.source].available),
                                 SnapshotOf(d, s.accounts[d], 0), o.amount, TransferPolicy(false, true))
      case Failure(e) => Some(if e.AccountOwnership? || e.SystemAccount? then Unauthorized else e)
      case Success(_) => None
  }

  function DebitEntry(s: State, id: Uuid, o: PaymentOrder, txId: Uuid): Entry {
    Entry(o.source, o.amount, 0, txId, Some(id))
  }

  function CreditEntry(s: State, id: Uuid, o: PaymentOrder, txId: Uuid): Entry {
    Entry(Destination(s, o), 0, o.amount, txId, Some(id))
  }

  /** The ledger part of a booking: both entries, both balances, and the order row. */
  function BookedState(s: State, id: Uuid, o: PaymentOrder, txId: Uuid): State {
    Post(s, DebitEntry(s, id, o, txId), CreditEntry(s, id, o, txId)).(orders := s.orders[id := BookRow(o, txId)])
  }

  // ----- notification events -----

  /** The recipient and account of an event exist and belong together. */
  predicate Deliverable(s: State, recipient: Uuid, account: Uuid) {
    && recipient in s.users && account in s.accounts
    && !s.accounts[account].isSystem && s.accounts[account].owner == Some(recipient)
  }

  /** The beneficiary is an owned customer account, so it gets its own event. */
  predicate CreditDue(s: State, o: PaymentOrder) {
    && o.beneficiary.Some? && o.beneficiary.value in s.accounts
    && !s.accounts[o.beneficiary.value].isSystem && s.accounts[o.beneficiary.value].owner.Some?
  }

  function DebitEvent(id: Uuid, o: PaymentOrder, balance: int): Event {
    Event(PaymentBooked, DebitSide, id, o.owner, o.source, balance, o.amount)
  }

  function CreditEvent(id: Uuid, o: PaymentOrder, b: Uuid, recipient: Uuid, balance: int): Event {
    Event(PaymentBooked, CreditSide, id, recipient, b, balance, o.amount)
  }

  function FailedEvent(id: Uuid, o: PaymentOrder, balance: int): Event {
    Event(PaymentFailed, DebitSide, id, o.owner, o.source, balance, o.amount)
  }

  /** The booked events, or nothing when building one of them fails and the transaction is rolled back. */
  function BookedEvents(s: State, id: Uuid, o: PaymentOrder): Option<seq<Event>> {
    if !Deliverable(s, o.owner, o.source) then None
    else if o.beneficiary.Some? && o.beneficiary.value !in s.accounts then None
    else
      var debit := DebitEvent(id, o, s.accounts[o.source].balance);
      if !CreditDue(s, o) then Some([debit])
      else
        var b := o.beneficiary.value;
        if !Deliverable(s, s.accounts[b].owner.value, b) then None
        else Some([debit, CreditEvent(id, o, b, s.accounts[b].owner.value, s.accounts[b].balance)])
  }

  /** Book or fail a claimed order, with its events; None means that the transaction is rolled back. */
  function Settle(s: State, id: Uuid, txId: Uuid): Option<State>
    requires id in s.orders
  {
    var o := s.orders[id];
    match BookingError(s, o)
    case None =>
      var booked := BookedState(s, id, o, txId);
      (match BookedEvents(booked, id, o)
       case None => None
       case Some(events) => Some(booked.(outbox := s.outbox + events)))
    case Some(e) =>
      if !o.status.Processing? || !Deliverable(s, o.owner, o.source) then None
      else Some(s.(orders := s.orders[id := FailRow(o, RejectCode(e))],
                   outbox := s.outbox + [FailedEvent(id, o, s.accounts[o.source].balance)]))
  }

  // ----- steps -----

  datatype Step =
    | CreateUser(user: Uuid)
    | CreateAccount(account: Uuid, owner: Uuid, iban: string)
    | CreateFundedCustomer(user: Uuid, account: Uuid, iban: string, amount: int, txId: Uuid)
    | DeleteAccount(account: Uuid, owner: Uuid)
    | Pin(referenced: set<Uuid>)
    | SetAccountStatus(account: Uuid, status: AccountStatus)
    | Deposit(account: Uuid, amount: int, txId: Uuid)
    | Withdraw(account: Uuid, amount: int, txId: Uuid)
    | Transfer(owner: Uuid, from: Uuid, to: Uuid, amount: int, txId: Uuid)
    | InsertOrder(id: Uuid, order: PaymentOrder)
    | Confirm(owner: Uuid, id: Uuid, acceptMismatch: bool, now: int, txId: Uuid)
    | Cancel(owner: Uuid, id: Uuid)
    | ClaimDue(batch: set<Uuid>, now: int)
    | RecoverStale(now: int, seconds: int)
    | Process(id: Uuid, txId: Uuid)

  function DepositError(s: State, account: Uuid): Option<LedgerError> {
    if s.settlement !in s.accounts || account !in s.accounts then Some(NoRows)
    else if s.accounts[account].isSystem then Some(SystemAccount)
    else if !s.accounts[account].status.Active? then Some(AccountBlocked)
    else if s.accounts[account].currency != s.accounts[s.settlement].currency then Some(CurrencyMismatch)
    else None
  }

  function WithdrawError(s: State, account: Uuid, amount: int): Option<LedgerError> {
    match DepositError(s, account)
    case Some(e) => Some(e)
    case None => if s.accounts[account].balance < amount then Some(InsufficientFunds) else None
  }

  function TransferError(s: State, owner: Uuid, from: Uuid, to: Uuid, amount: int): Option<LedgerError> {
    if from == to || from !in s.accounts || to !in s.accounts then Some(AccountNotFound)
    else
      match PlanCustomerTransfer(owner, SnapshotOf(from, s.accounts[from], s.accounts[from].balance),
                                 SnapshotOf(to, s.accounts[to], 0), amount, TransferPolicy(true, false))
      case Failure(e) => Some(e)
      case Success(_) => None
  }

  function DepositState(s: State, account: Uuid, amount: int, txId: Uuid): State {
    Post(s, Entry(account, 0, amount, txId, None), Entry(s.settlement, amount, 0, txId, None))
  }

  function WithdrawState(s: State, account: Uuid, amount: int, txId: Uuid): State {
    Post(s, Entry(account, amount, 0, txId, None), Entry(s.settlement, 0, amount, txId, None))
  }

  function TransferState(s: State, from: Uuid, to: Uuid, amount: int, txId: Uuid): State {
    Post(s, Entry(from, amount, 0, txId, None), Entry(to, 0, amount, txId, None))
  }

  function AddAccount(s: State, id: Uuid, owner: Uuid, iban: string): State {
    s.(accounts := s.accounts[id := Account(Some(owner), false, iban, "EUR", Active, 0, 0)], issued := s.issued + {id})
  }

  /** No other account has this IBAN (UNIQUE). */
  predicate IbanFree(s: State, iban: string) {
    forall a :: a in s.accounts ==> s.accounts[a].iban != iban
  }

  /** No payment order refers to the account (ON DELETE RESTRICT). */
  predicate Unreferenced(s: State, account: Uuid) {
    forall id :: id in s.orders ==> s.orders[id].source != account && s.orders[id].beneficiary != Some(account)
  }

  /** No order of this owner has this idempotency key yet (UNIQUE). */
  predicate KeyFree(s: State, owner: Uuid, key: string) {
    forall id :: id in s.orders ==> s.orders[id].owner != owner || s.orders[id].key != key
  }

  /** The order is owned, and its accounts are what the creating code looked up. */
  predicate Grounded(s: State, o: PaymentOrder) {
    && o.amount > 0
    && Deliverable(s, o.owner, o.source)
    && (o.beneficiary.Some? ==>
          && o.beneficiary.value in s.accounts && o.beneficiary.value != o.source
          && !s.accounts[o.beneficiary.value].isSystem)
  }

  /** A row that may be inserted: a draft to confirm, or an occurrence of a standing order. */
  predicate Insertable(s: State, id: Uuid, o: PaymentOrder) {
    && id !in s.orders && KeyFree(s, o.owner, o.key) && Grounded(s, o)
    && (if o.schedule.Standing? then o.status.Scheduled? else o.status.AwaitingConfirmation?)
    && o.ledgerTx.None? && o.startedAt.None?
  }

  predicate ConfirmReady(s: State, owner: Uuid, id: Uuid, acceptMismatch: bool) {
    && id in s.orders && s.orders[id].owner == owner && s.orders[id].status.AwaitingConfirmation?
    && (s.orders[id].vop.Match? || acceptMismatch)
  }

  function ConfirmTarget(o: PaymentOrder, now: int): Status {
    if o.schedule.AtTime? && o.requestedAt > now then Scheduled else Processing
  }

  /** The effect of one committed transaction; a transaction that fails leaves the database as it was. */
  function Apply(s: State, step: Step): State {
    match step
    case CreateUser(user) =>
      if user == NIL then s else s.(users := s.users + {user})
    case CreateAccount(account, owner, iban) =>
      if owner in s.users && account !in s.issued && IbanFree(s, iban) then AddAccount(s, account, owner, iban) else s
    case CreateFundedCustomer(user, account, iban, amount, txId) =>
      if user == NIL || user in s.users || account in s.issued || !IbanFree(s, iban)
         || amount <= 0 || UsesTx(s.entries, txId) then s
      else
        var s1 := AddAccount(s.(users := s.users + {user}), account, user, iban);
        if DepositError(s1, account).None? then DepositState(s1, account, amount, txId) else s
    case DeleteAccount(account, owner) =>
      if && account in s.accounts && s.accounts[account].owner == Some(owner) && !s.accounts[account].isSystem
         && s.accounts[account].balance == 0 && !HasEntries(s.entries, account) && Unreferenced(s, account)
         && account !in s.pinned
      then s.(accounts := s.accounts - {account}) else s
    case Pin(referenced) =>
      if referenced <= s.accounts.Keys then s.(pinned := s.pinned + referenced) else s
    case SetAccountStatus(account, status) =>
      if account in s.accounts && !s.accounts[account].isSystem
      then s.(accounts := s.accounts[account := s.accounts[account].(status := status)]) else s
    case Deposit(account, amount, txId) =>
      if DepositError(s, account).None? && amount > 0 && !UsesTx(s.entries, txId)
      then DepositState(s, account, amount, txId) else s
    case Withdraw(account, amount, txId) =>
      if WithdrawError(s, account, amount).None? && amount > 0 && !UsesTx(s.entries, txId)
      then WithdrawState(s, account, amount, txId) else s
    case Transfer(owner, from, to, amount, txId) =>
      if TransferError(s, owner, from, to, amount).None? && !UsesTx(s.entries, txId)
      then TransferState(s, from, to, amount, txId) else s
    case InsertOrder(id, order) =>
      if Insertable(s, id, order) then s.(orders := s.orders[id := order]) else s
    case Confirm(owner, id, acceptMismatch, now, txId) =>
      if !ConfirmReady(s, owner, id, acceptMismatch) || UsesTx(s.entries, txId) then s
      else
        var o := s.orders[id];
        var s1 := s.(orders := s.orders[id := ConfirmRow(o, ConfirmTarget(o, now), !o.vop.Match?)]);
        if ConfirmTarget(o, now).Scheduled? then s1 else Settle(s1, id, txId).GetOr(s)
    case Cancel(owner, id) =>
      if id in s.orders && s.orders[id].owner == owner then s.(orders := s.orders[id := CancelRow(s.orders[id])]) else s
    case ClaimDue(batch, now) =>
      s.(orders := map id | id in s.orders :: if id in batch then ClaimRow(s.orders[id], now) else s.orders[id])
    case RecoverStale(now, seconds) =>
      s.(orders := map id | id in s.orders :: RecoverRow(s.orders[id], now, seconds))
    case Process(id, txId) =>
      if id !in s.orders || !s.orders[id].status.Processing? || s.orders[id].ledgerTx.Some? || UsesTx(s.entries, txId) then s
      else Settle(s, id, txId).GetOr(s)
  }

  function Run(s: State, steps: seq<Step>): State
    decreases |steps|
  {
    if steps == [] then s else Run(Apply(s, steps[0]), steps[1..])
  }

  ghost predicate Reachable(s: State, t: State) {
    exists steps :: t == Run(s, steps)
  }
}
