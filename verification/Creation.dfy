/** Idempotent creation of payment orders (payments.go, payment/domain/intent.go). */
module Creation {
  import opened Wrappers
  import opened Posting
  import opened Lifecycle
  import opened Bank
  import opened BankInvariant
  import opened BankPreservation
  import opened BankRuns
  import opened PaymentSystem
  import Iban

  const MICROSECOND := 1_000
  const MINUTE := 60_000_000_000

  datatype TransferType = DefaultTransfer | Standard | Instant | UnknownTransfer
  datatype RequestedSchedule = WantImmediate | WantScheduled | UnknownSchedule

  /** A normalised input. `amount` is the parsed amount; the flags are the outcomes of the plain-text checks on the name
      and on purpose and reference, and of the BIC pattern. */
  datatype Input = Input(
    owner: Uuid, source: Uuid, name: string, iban: string, bic: string, amount: Option<int>, transfer: TransferType,
    schedule: RequestedSchedule, purpose: string, reference: string, requestedAt: int, key: string,
    nameOk: bool, bicOk: bool, textOk: bool)

  datatype CreationError =
    | InvalidInput
    | BadIban
    | BadAmount
    | IdempotencyConflict
    | NoAccount
    | NotAuthorized
    | Inactive
    | WrongCurrency
    | SameAccount
    | Database

  /** The first rule that the input breaks. */
  function ValidationError(input: Input, now: int): Option<CreationError> {
    if input.owner == NIL || input.source == NIL || !input.nameOk then Some(InvalidInput)
    else if !Iban.Valid(input.iban) then Some(BadIban)
    else if !input.bicOk then Some(InvalidInput)
    else if input.amount.None? || input.amount.value <= 0 then Some(BadAmount)
    else if !input.textOk then Some(InvalidInput)
    else if |input.key| < 8 || |input.key| > 128 then Some(InvalidInput)
    else if input.transfer.UnknownTransfer? || input.schedule.UnknownSchedule? then Some(InvalidInput)
    else if input.schedule.WantScheduled? && input.requestedAt < now - MINUTE then Some(InvalidInput)
    else None
  }

  /** The inputs that are accepted, rule by rule. */
  lemma {:induction false} AcceptedIff(input: Input, now: int)
    ensures ValidationError(input, now).None? <==>
              && input.owner != 0 && input.source != 0 && input.nameOk && Iban.Valid(input.iban) && input.bicOk
              && input.amount.Some? && input.amount.value >= 1 && input.textOk && 8 <= |input.key| <= 128
              && input.transfer in {DefaultTransfer, Standard, Instant}
              && (input.schedule == WantImmediate || (input.schedule == WantScheduled && input.requestedAt + 60_000_000_000 >= now))
    ensures ValidationError(input, now) == Some(BadIban) <==>
              input.owner != 0 && input.source != 0 && input.nameOk && !Iban.Valid(input.iban)
    ensures ValidationError(input, now) == Some(BadAmount) <==>
              && input.owner != 0 && input.source != 0 && input.nameOk && Iban.Valid(input.iban) && input.bicOk
              && (input.amount.None? || input.amount.value < 1)
    ensures ValidationError(input, now).Some? ==> ValidationError(input, now).value in {InvalidInput, BadIban, BadAmount}
  {
    hide Iban.Valid;
  }

  // ----- what an idempotency key protects -----

  datatype Intent = Intent(
    source: Uuid, name: string, iban: string, bic: string, amount: int, schedule: ScheduleType, purpose: string,
    reference: string, requestedAt: int, instant: bool, internal: bool)

  function Abs(x: int): int {
    if x < 0 then -x else x
  }

  /** A replay may differ from the stored row by the timestamp precision of the database, and an internal
      order does not remember the requested rail. */
  predicate EquivalentIntent(stored: Intent, requested: Intent) {
    && stored.source == requested.source && stored.iban == requested.iban && stored.name == requested.name
    && stored.bic == requested.bic && stored.amount == requested.amount && stored.schedule == requested.schedule
    && stored.purpose == requested.purpose && stored.reference == requested.reference
    && (requested.schedule.AtTime? ==> Abs(stored.requestedAt - requested.requestedAt) <= MICROSECOND)
    && (stored.instant == requested.instant || stored.internal)
  }

  function StoredIntent(o: PaymentOrder): Intent {
    Intent(o.source, o.name, o.iban, o.bic.GetOr(""), o.amount, o.schedule, o.purpose.GetOr(""), o.reference.GetOr(""),
           o.requestedAt, o.kind.SepaInstant?, o.kind.Internal? || o.kind.Umbuchung?)
  }

  /** What a replay must repeat, column by column: everything but the owner's key itself, the time of an immediate payment,
      and the rail of a payment that turned out to be internal. */
  predicate Repeats(o: PaymentOrder, input: Input) {
    && o.source == input.source && o.iban == input.iban && o.name == input.name
    && (o.bic == Some(input.bic) || (o.bic == None && input.bic == ""))
    && (input.amount == Some(o.amount) || (input.amount == None && o.amount == 0))
    && (if input.schedule == WantScheduled then o.schedule == AtTime else o.schedule == Immediate)
    && (o.purpose == Some(input.purpose) || (o.purpose == None && input.purpose == ""))
    && (o.reference == Some(input.reference) || (o.reference == None && input.reference == ""))
    && (input.schedule == WantScheduled ==> -1_000 <= o.requestedAt - input.requestedAt <= 1_000)
    && (o.kind == Internal || o.kind == Umbuchung || (o.kind == SepaInstant <==> input.transfer == Instant))
  }

  /** The comparison of intents is exactly that. */
  lemma {:induction false} EquivalentIffRepeats(o: PaymentOrder, input: Input)
    ensures EquivalentIntent(StoredIntent(o), RequestedIntent(input)) <==> Repeats(o, input)
  {
  }

  function ScheduleOf(input: Input): ScheduleType {
    if input.schedule.WantScheduled? then AtTime else Immediate
  }

  function RequestedIntent(input: Input): Intent {
    Intent(input.source, input.name, input.iban, input.bic, input.amount.GetOr(0), ScheduleOf(input), input.purpose,
           input.reference, input.requestedAt, input.transfer.Instant?, false)
  }

  /** Empty text is stored as NULL. */
  function NullString(value: string): Option<string> {
    if value == "" then None else Some(value)
  }

  /** time.Round(time.Microsecond): to the nearest multiple, halfway values up. */
  function RoundMicro(t: int): (r: int)
    ensures r % 1_000 == 0 && -500 < r - t <= 500
  {
    var rest := t % MICROSECOND;
    if rest + rest < MICROSECOND then t - rest else t + (MICROSECOND - rest)
  }

  /** The kind follows from the beneficiary account found by IBAN, if any, and otherwise from the rail. */
  function KindOf(s: State, input: Input, beneficiary: Option<Uuid>): PaymentKind {
    if beneficiary.Some? then
      if beneficiary.value in s.accounts && s.accounts[beneficiary.value].owner == Some(input.owner) then Umbuchung else Internal
    else if input.transfer.Instant? then SepaInstant else Sepa
  }

  function NewOrder(input: Input, beneficiary: Option<Uuid>, kind: PaymentKind, vop: Vop, now: int): PaymentOrder {
    PaymentOrder(input.owner, input.source, beneficiary, input.name, input.iban, NullString(input.bic), input.amount.GetOr(0),
                 kind, ScheduleOf(input), NullString(input.purpose), NullString(input.reference), input.key,
                 if input.schedule.WantScheduled? then RoundMicro(input.requestedAt) else now,
                 vop, false, AwaitingConfirmation, None, None, 0, None)
  }

  /** The stored form of every input is equivalent to the input itself, whatever kind was derived. */
  lemma StoredFormIsEquivalent(s: State, input: Input, beneficiary: Option<Uuid>, vop: Vop, now: int)
    requires input.amount.Some?
    ensures EquivalentIntent(StoredIntent(NewOrder(input, beneficiary, KindOf(s, input, beneficiary), vop, now)),
                             RequestedIntent(input))
    ensures Repeats(NewOrder(input, beneficiary, KindOf(s, input, beneficiary), vop, now), input)
  {
    EquivalentIffRepeats(NewOrder(input, beneficiary, KindOf(s, input, beneficiary), vop, now), input);
    assert -500 < RoundMicro(input.requestedAt) - input.requestedAt <= 500;
  }

  /** An equivalent stored order stays equivalent in every run, so a replay keeps finding it. */
  lemma {:induction false} ReplayStaysEquivalent(s: State, steps: seq<Step>, id: Uuid, input: Input)
    requires id in s.orders
    ensures id in Run(s, steps).orders
    ensures Run(s, steps).orders[id].owner == s.orders[id].owner && Run(s, steps).orders[id].key == s.orders[id].key
    ensures Repeats(Run(s, steps).orders[id], input) <==> Repeats(s.orders[id], input)
  {
    RunKeepsIdentity(s, steps, id);
    IdentityRepeats(s.orders[id], Run(s, steps).orders[id], input);
  }

  lemma IdentityRepeats(o: PaymentOrder, p: PaymentOrder, input: Input)
    requires Identity(o) == Identity(p)
    ensures o.owner == p.owner && o.key == p.key && (Repeats(o, input) <==> Repeats(p, input))
  {
    assert Identity(o).owner == o.owner && Identity(p).owner == p.owner;
    assert Repeats(o, input) <==> Repeats(Identity(o), input);
    assert Repeats(p, input) <==> Repeats(Identity(p), input);
  }

  // ----- what earlier reads say about later states -----

  /** The account, if it still exists, is the one that was read. */
  ghost predicate StillThere(s: State, a: Uuid, read: Account) {
    && a in s.issued
    && (a in s.accounts ==> s.accounts[a].owner == read.owner && s.accounts[a].isSystem == read.isSystem)
  }

  lemma StepKeepsRead(s: State, step: Step, a: Uuid, read: Account)
    requires StillThere(s, a, read)
    ensures StillThere(Apply(s, step), a, read)
    ensures s.users <= Apply(s, step).users
  {
    hide Insertable, KeyFree, UsesTx, ClaimRow, RecoverRow, CancelRow, Settle;
    match step
    case Confirm(owner, id, acceptMismatch, now, txId) =>
      if ConfirmReady(s, owner, id, acceptMismatch) {
        var o := s.orders[id];
        SettleKeepsRead(s.(orders := s.orders[id := ConfirmRow(o, ConfirmTarget(o, now), !o.vop.Match?)]), id, txId, a, read);
      }
    case Process(id, txId) =>
      if id in s.orders {
        SettleKeepsRead(s, id, txId, a, read);
      }
    case _ =>
  }

  lemma SettleKeepsRead(s: State, id: Uuid, txId: Uuid, a: Uuid, read: Account)
    requires StillThere(s, a, read) && id in s.orders
    ensures var settled := Settle(s, id, txId);
      settled.Some? ==> StillThere(settled.value, a, read) && settled.value.users == s.users
  {
  }

  lemma {:induction false} RunKeepsRead(s: State, steps: seq<Step>, a: Uuid, read: Account)
    requires StillThere(s, a, read)
    ensures StillThere(Run(s, steps), a, read)
    ensures s.users <= Run(s, steps).users
    decreases |steps|
  {
    if steps != [] {
      StepKeepsRead(s, steps[0], a, read);
      RunKeepsRead(Apply(s, steps[0]), steps[1..], a, read);
    }
  }

  lemma ReachKeepsRead(s: State, t: State, a: Uuid, read: Account)
    requires Reachable(s, t) && StillThere(s, a, read)
    ensures StillThere(t, a, read) && s.users <= t.users
  {
    var steps :| t == Run(s, steps);
    RunKeepsRead(s, steps, a, read);
  }

  /** An order under the key persists, with the same answer to a replay. */
  lemma ReachKeepsOrder(s: State, t: State, id: Uuid, input: Input)
    requires Reachable(s, t) && id in s.orders
    ensures id in t.orders && t.orders[id].owner == s.orders[id].owner && t.orders[id].key == s.orders[id].key
    ensures Repeats(t.orders[id], input) <==> Repeats(s.orders[id], input)
  {
    var steps :| t == Run(s, steps);
    ReplayStaysEquivalent(s, steps, id, input);
  }

  // ----- the calls -----

  datatype Creation = Creation(id: Uuid, order: PaymentOrder, replayed: bool)

  /** The order `id` is stored under the input's owner and key. */
  predicate HoldsKey(s: State, id: Uuid, input: Input) {
    id in s.orders && s.orders[id].owner == input.owner && s.orders[id].key == input.key
  }

  predicate Matches(s: State, id: Uuid, input: Input) {
    HoldsKey(s, id, input) && Repeats(s.orders[id], input)
  }

  /** GetPaymentOrderByIdempotency: an error, no row, or the row. */
  method LookupByKey(s: State, input: Input) returns (r: Result<Option<Uuid>, CreationError>)
    ensures r == Success(None) ==> KeyFree(s, input.owner, input.key)
    ensures r.Success? && r.value.Some? ==> HoldsKey(s, r.value.value, input)
    ensures r.Failure? ==> r.error == Database
  {
    var refused: bool := *;
    if refused {
      return Failure(Database);
    }
    var ids := set id | id in s.orders && s.orders[id].owner == input.owner && s.orders[id].key == input.key;
    if ids == {} {
      forall id | id in s.orders ensures s.orders[id].owner != input.owner || s.orders[id].key != input.key {
        assert id !in ids;
      }
      r := Success(None);
    } else {
      var id :| id in ids;
      r := Success(Some(id));
    }
  }

  /** GetAccountByIBAN, for a beneficiary that is not a system account. */
  method LookupBeneficiary(s: State, input: Input) returns (beneficiary: Option<Uuid>)
    ensures beneficiary.Some? ==>
              beneficiary.value in s.accounts && !s.accounts[beneficiary.value].isSystem
              && s.accounts[beneficiary.value].iban == input.iban
    ensures beneficiary.None? ==> forall a :: a in s.accounts && s.accounts[a].iban == input.iban ==> s.accounts[a].isSystem
  {
    var ids := set a | a in s.accounts && s.accounts[a].iban == input.iban && !s.accounts[a].isSystem;
    if ids == {} {
      beneficiary := None;
      forall a | a in s.accounts && s.accounts[a].iban == input.iban ensures s.accounts[a].isSystem {
        assert a !in ids;
      }
    } else {
      var a :| a in ids;
      beneficiary := Some(a);
    }
  }

  /** Read the source account and check that the customer may debit it. */
  function SourceError(s: State, input: Input): Option<CreationError> {
    if input.source !in s.accounts then Some(NoAccount)
    else
      var a := s.accounts[input.source];
      if !CustomerCanOperate(input.owner, a.owner, a.isSystem) then Some(NotAuthorized)
      else if !a.status.Active? then Some(Inactive)
      else if a.currency != "EUR" then Some(WrongCurrency)
      else None
  }

  /** uuid of a new order row. */
  method NewOrderId(s: State) returns (id: Uuid)
    ensures id !in s.orders
  {
    id := 1;
    var rest := s.orders.Keys;
    while rest != {}
      invariant forall other :: other in s.orders && other !in rest ==> other < id
      decreases |rest|
    {
      var other :| other in rest;
      rest := rest - {other};
      if other >= id {
        id := other + 1;
      }
    }
  }

  /**
    The insert and what follows a unique violation. The row is accepted exactly when the database constraints hold;
    the earlier reads of the accounts make every accepted row well-founded. A conflict means that the key holds a
    different intent, unless the second lookup fails (`unread`), which the code reports in the same way.
   */
  method InsertOrReplay(db: Database, input: Input, o: PaymentOrder)
    returns (r: Result<Creation, CreationError>, ghost inserted: nat, ghost unread: bool)
    requires Inv(db.state) && input.amount.Some? && input.amount.value > 0
    requires o.owner == input.owner && o.key == input.key && o.source == input.source && o.amount == input.amount.value
    requires Repeats(o, input)
    requires o.status.AwaitingConfirmation? && o.ledgerTx.None? && o.startedAt.None?
    requires StillThere(db.state, o.source, Account(Some(input.owner), false, "", "EUR", Active, 0, 0))
    requires o.beneficiary.Some? ==>
               o.beneficiary.value != o.source
               && exists read: Account :: !read.isSystem && StillThere(db.state, o.beneficiary.value, read)
    modifies db
    ensures Inv(db.state) && Reachable(old(db.state), db.state)
    ensures r.Success? ==> Matches(db.state, r.value.id, input)
    ensures r.Success? ==> inserted == if r.value.replayed then 0 else 1
    ensures r.Success? && !r.value.replayed ==> KeyFree(old(db.state), input.owner, input.key) && r.value.order == o
    ensures r.Success? && r.value.replayed ==> HoldsKey(db.state, r.value.id, input) && Repeats(r.value.order, input)
    ensures inserted <= 1 && (inserted == 0 || KeyFree(old(db.state), input.owner, input.key))
    ensures r.Failure? ==> r.error.Database? || r.error.IdempotencyConflict?
    ensures r == Failure(IdempotencyConflict) ==>
              && inserted == 0 && !KeyFree(old(db.state), input.owner, input.key)
              && (unread || exists id :: HoldsOther(db.state, id, input))
  {
    inserted, unread := 0, false;
    ReachableRefl(db.state);
    ghost var before := db.state;
    var refused: bool := *;
    if refused {
      return Failure(Database), 0, false;
    }
    if !KeyFree(db.state, input.owner, input.key) {
      db.Interfere();
      TakenStays(before, db.state, input);
      var existing := LookupByKey(db.state, input);
      if existing.Success? && existing.value.Some? {
        var id := existing.value.value;
        EquivalentIffRepeats(db.state.orders[id], input);
        if EquivalentIntent(StoredIntent(db.state.orders[id]), RequestedIntent(input)) {
          return Success(Creation(id, db.state.orders[id], true)), 0, false;
        }
        assert HoldsOther(db.state, id, input);
      }
      return Failure(IdempotencyConflict), 0, existing.Failure?;
    }
    if o.owner !in db.state.users || o.source !in db.state.accounts
       || (o.beneficiary.Some? && o.beneficiary.value !in db.state.accounts) {
      return Failure(Database), 0, false;
    }
    var id := NewOrderId(db.state);
    assert Insertable(db.state, id, o);
    StepKeeps(db.state, InsertOrder(id, o));
    ReachableStep(db.state, db.state, InsertOrder(id, o));
    db.state := Apply(db.state, InsertOrder(id, o));
    inserted := 1;
    var audited: bool := *;
    if !audited {
      return Failure(Database), 1, false;
    }
    r := Success(Creation(id, o, false));
  }

  /** Another intent is stored under the input's key. */
  predicate HoldsOther(s: State, id: Uuid, input: Input) {
    HoldsKey(s, id, input) && !Repeats(s.orders[id], input)
  }

  lemma TakenStays(s: State, t: State, input: Input)
    requires Reachable(s, t) && !KeyFree(s, input.owner, input.key)
    ensures !KeyFree(t, input.owner, input.key)
  {
    var id :| id in s.orders && s.orders[id].owner == input.owner && s.orders[id].key == input.key;
    ReachKeepsOrder(s, t, id, input);
  }

  /** Why a valid input is refused, in terms of the states in which its source account and its beneficiary were read. An
      account that cannot be read counts as missing. */
  predicate Refusal(read: State, seen: State, input: Input, error: CreationError, unread: bool) {
    match error
    case Database => true
    case NoAccount => unread || input.source !in read.accounts
    case SameAccount => input.source in seen.accounts && seen.accounts[input.source].iban == input.iban
    case NotAuthorized =>
      input.source in read.accounts && (read.accounts[input.source].owner != Some(input.owner) || read.accounts[input.source].isSystem)
    case Inactive => input.source in read.accounts && read.accounts[input.source].status != Active
    case WrongCurrency => input.source in read.accounts && read.accounts[input.source].currency != "EUR"
    case _ => false
  }

  /** The source account may be debited by the customer. */
  predicate MayDebit(s: State, input: Input) {
    && input.source in s.accounts && s.accounts[input.source].owner == Some(input.owner) && !s.accounts[input.source].isSystem
    && s.accounts[input.source].status == Active && s.accounts[input.source].currency == "EUR"
  }

  /** The row of a new order: the columns of the input, the beneficiary account with its IBAN if there is one, the kind that
      follows, the time to the nearest microsecond, and awaiting confirmation. */
  predicate IsNewOrder(o: PaymentOrder, seen: State, input: Input, now: int) {
    && o.owner == input.owner && o.key == input.key && Repeats(o, input)
    && (o.bic == None <==> input.bic == "") && (o.purpose == None <==> input.purpose == "")
    && (o.reference == None <==> input.reference == "")
    && (o.beneficiary.None? ==>
          && (forall a :: a in seen.accounts && seen.accounts[a].iban == input.iban ==> seen.accounts[a].isSystem)
          && o.kind == (if input.transfer == Instant then SepaInstant else Sepa))
    && (o.beneficiary.Some? ==>
          && o.beneficiary.value in seen.accounts && o.beneficiary.value != input.source
          && seen.accounts[o.beneficiary.value].iban == input.iban && !seen.accounts[o.beneficiary.value].isSystem
          && o.kind == (if seen.accounts[o.beneficiary.value].owner == Some(input.owner) then Umbuchung else Internal))
    && (input.schedule == WantScheduled ==> o.requestedAt % 1_000 == 0 && -500 < o.requestedAt - input.requestedAt <= 500)
    && (input.schedule == WantImmediate ==> o.requestedAt == now)
    && o.status == AwaitingConfirmation && !o.vopOverridden && o.rejectCode == None && o.ledgerTx == None && o.startedAt == None
    && o.attempts == 0
  }

  lemma SourceRead(s: State, input: Input, now: int)
    requires Inv(s) && ValidationError(input, now).None?
    ensures SourceError(s, input).Some? ==> Refusal(s, s, input, SourceError(s, input).value, false)
    ensures SourceError(s, input).Some? ==> SourceError(s, input).value in {NoAccount, NotAuthorized, Inactive, WrongCurrency}
    ensures SourceError(s, input).None? ==>
              MayDebit(s, input) && StillThere(s, input.source, Account(Some(input.owner), false, "", "EUR", Active, 0, 0))
  {
    hide Iban.Valid;
  }

  lemma AccountRead(s: State, a: Uuid)
    requires Inv(s) && a in s.accounts
    ensures StillThere(s, a, s.accounts[a])
  {
  }

  lemma NewOrderIs(o: PaymentOrder, seen: State, input: Input, beneficiary: Option<Uuid>, vop: Vop, now: int)
    requires ValidationError(input, now).None? && o == NewOrder(input, beneficiary, KindOf(seen, input, beneficiary), vop, now)
    requires beneficiary.Some? ==>
               && beneficiary.value in seen.accounts && !seen.accounts[beneficiary.value].isSystem
               && seen.accounts[beneficiary.value].iban == input.iban && beneficiary.value != input.source
    requires beneficiary.None? ==> forall a :: a in seen.accounts && seen.accounts[a].iban == input.iban ==> seen.accounts[a].isSystem
    ensures IsNewOrder(o, seen, input, now) && Repeats(o, input)
    ensures input.amount.Some? && input.amount.value > 0 && o.beneficiary == beneficiary
    ensures o.owner == input.owner && o.key == input.key && o.source == input.source && o.amount == input.amount.value
    ensures o.status.AwaitingConfirmation? && o.ledgerTx.None? && o.startedAt.None?
  {
    hide Iban.Valid;
    StoredFormIsEquivalent(seen, input, beneficiary, vop, now);
  }

  /**
    CreatePayment, with other workers committing between any two of its statements. A successful call returns an
    order stored under the key whose columns repeat the input; it adds one row when it is not a replay and none
    when it is. When the key is already taken, the answer depends on the columns of its order alone and nothing is added.
    Any other refusal adds nothing either, apart from a database error, and has its reason in the states `read` and `seen`
    in which the source account and the beneficiary were read, or in another intent under the key.
   */
  method CreatePayment(db: Database, input: Input, now: int)
    returns (r: Result<Creation, CreationError>, ghost inserted: nat, ghost read: State, ghost seen: State, ghost unread: bool)
    requires Inv(db.state)
    modifies db
    ensures Inv(db.state) && Reachable(old(db.state), db.state)
    ensures r.Success? ==> Matches(db.state, r.value.id, input)
    ensures inserted <= 1 && (r.Success? ==> inserted == if r.value.replayed then 0 else 1)
    ensures ValidationError(input, now).Some? ==> r == Failure(ValidationError(input, now).value)
    ensures ValidationError(input, now).None? && !KeyFree(old(db.state), input.owner, input.key) ==>
              && inserted == 0 && db.state == old(db.state)
              && (r == Failure(Database)
                  || exists id :: HoldsKey(db.state, id, input)
                       && r == if Matches(db.state, id, input) then Success(Creation(id, db.state.orders[id], true))
                               else Failure(IdempotencyConflict))
    ensures Reachable(old(db.state), read) && Reachable(read, seen) && Reachable(seen, db.state)
    ensures r.Success? && !r.value.replayed ==> MayDebit(read, input) && IsNewOrder(r.value.order, seen, input, now)
    ensures r.Success? && r.value.replayed ==> HoldsKey(db.state, r.value.id, input) && Repeats(r.value.order, input)
    ensures ValidationError(input, now).None? && r.Failure? ==>
              && (!r.error.Database? ==> inserted == 0)
              && (if r.error.IdempotencyConflict? then unread || exists id :: HoldsOther(db.state, id, input)
                  else Refusal(read, seen, input, r.error, unread))
  {
    inserted, read, seen, unread := 0, db.state, db.state, false;
    ReachableRefl(db.state);
    var invalid := ValidationError(input, now);
    if invalid.Some? {
      return Failure(invalid.value), 0, read, seen, false;
    }
    var existing := LookupByKey(db.state, input);
    if existing.Failure? {
      return Failure(existing.error), 0, read, seen, false;
    }
    if existing.value.Some? {
      var id := existing.value.value;
      EquivalentIffRepeats(db.state.orders[id], input);
      if !EquivalentIntent(StoredIntent(db.state.orders[id]), RequestedIntent(input)) {
        assert HoldsOther(db.state, id, input);
        return Failure(IdempotencyConflict), 0, read, seen, false;
      }
      return Success(Creation(id, db.state.orders[id], true)), 0, read, seen, false;
    }
    r, inserted, read, seen, unread := CreateFresh(db, input, now);
  }

  /** The part of CreatePayment after the key was found free. */
  method CreateFresh(db: Database, input: Input, now: int)
    returns (r: Result<Creation, CreationError>, ghost inserted: nat, ghost read: State, ghost seen: State, ghost unread: bool)
    requires Inv(db.state) && ValidationError(input, now).None?
    modifies db
    ensures Inv(db.state) && Reachable(old(db.state), db.state)
    ensures r.Success? ==> Matches(db.state, r.value.id, input)
    ensures inserted <= 1 && (r.Success? ==> inserted == if r.value.replayed then 0 else 1)
    ensures Reachable(old(db.state), read) && Reachable(read, seen) && Reachable(seen, db.state)
    ensures r.Success? && !r.value.replayed ==> MayDebit(read, input) && IsNewOrder(r.value.order, seen, input, now)
    ensures r.Success? && r.value.replayed ==> HoldsKey(db.state, r.value.id, input) && Repeats(r.value.order, input)
    ensures r.Failure? ==>
              && (!r.error.Database? ==> inserted == 0)
              && (if r.error.IdempotencyConflict? then unread || exists id :: HoldsOther(db.state, id, input)
                  else Refusal(read, seen, input, r.error, unread))
  {
    hide NewOrder, KindOf, Repeats, IsNewOrder, ValidationError, HoldsOther, HoldsKey, Matches, KeyFree, Inv, SourceError;
    ghost var start := db.state;
    db.Interfere();
    ghost var first := db.state;
    read, seen, unread, inserted := first, first, false, 0;
    ReachableRefl(first);
    var lost: bool := *;
    if lost {
      return Failure(NoAccount), 0, first, first, true;
    }
    SourceRead(db.state, input, now);
    var sourceError := SourceError(db.state, input);
    if sourceError.Some? {
      return Failure(sourceError.value), 0, first, first, false;
    }
    ghost var readSource := Account(Some(input.owner), false, "", "EUR", Active, 0, 0);
    db.Interfere();
    ReachableTrans(start, first, db.state);
    ReachKeepsRead(first, db.state, input.source, readSource);
    ghost var second := db.state;
    ReachableRefl(second);
    seen := second;
    var unreadable: bool := *;
    if unreadable {
      return Failure(Database), 0, first, second, false;
    }
    var beneficiary := LookupBeneficiary(db.state, input);
    if beneficiary == Some(input.source) {
      return Failure(SameAccount), 0, first, second, false;
    }
    var vop: Vop := *;
    var unverified: bool := *;
    if unverified {
      return Failure(Database), 0, first, second, false;
    }
    var o := NewOrder(input, beneficiary, KindOf(db.state, input, beneficiary), vop, now);
    NewOrderIs(o, db.state, input, beneficiary, vop, now);
    db.Interfere();
    ReachableTrans(start, second, db.state);
    ReachKeepsRead(second, db.state, input.source, readSource);
    if beneficiary.Some? {
      AccountRead(second, beneficiary.value);
      ReachKeepsRead(second, db.state, beneficiary.value, second.accounts[beneficiary.value]);
    }
    ghost var third := db.state;
    r, inserted, unread := InsertOrReplay(db, input, o);
    ReachableTrans(start, third, db.state);
    ReachableTrans(second, third, db.state);
  }

  /** The whole life of a key: once an input was accepted, in every later state a replay that still validates
      is answered with the same order, and a different intent under the key is answered with a conflict. */
  lemma {:induction false} ReplayFindsTheOrder(s: State, steps: seq<Step>, id: Uuid, other: Uuid, input: Input, changed: Input)
    requires Inv(s) && Matches(s, id, input)
    requires changed.owner == input.owner && changed.key == input.key
    ensures var t := Run(s, steps);
      && Matches(t, id, input)
      && (HoldsKey(t, other, input) ==> other == id)
      && (Matches(t, id, changed) <==> Repeats(s.orders[id], changed))
  {
    RunKeeps(s, steps);
    ReplayStaysEquivalent(s, steps, id, input);
    ReplayStaysEquivalent(s, steps, id, changed);
    if HoldsKey(Run(s, steps), other, input) {
      assert SameKey(Run(s, steps).orders, id, other);
    }
  }
}
