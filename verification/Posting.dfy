/** Infrastructure-free posting rules (ledger/domain/posting.go, account/ownership.go). */
module Posting {
  import opened Wrappers

  type Uuid = nat

  /** uuid.Nil. */
  const NIL: Uuid := 0

  datatype AccountStatus = Active | Blocked | Closed

  datatype LedgerError =
    | InvalidAmount
    | SameAccountTransfer
    | SystemAccount
    | AccountOwnership
    | AccountBlocked
    | CurrencyMismatch
    | InsufficientFunds
    | AccountNotFound
    | Unauthorized
    | InvalidState
    | NoRows
    | SqlError

  datatype AccountSnapshot = AccountSnapshot(
    id: Uuid, owner: Option<Uuid>, currency: string, status: AccountStatus, available: int, isSystem: bool)

  datatype TransferPolicy = TransferPolicy(requireDestinationOwnership: bool, allowSystemDestination: bool)

  datatype Leg = Leg(account: Uuid, debit: int, credit: int)

  datatype Plan = Plan(debitLeg: Leg, creditLeg: Leg) {
    predicate Balanced() {
      && debitLeg.account != creditLeg.account
      && debitLeg.debit > 0 && debitLeg.credit == 0
      && creditLeg.debit == 0 && creditLeg.credit == debitLeg.debit
    }
  }

  predicate CustomerCanOperate(requester: Uuid, owner: Option<Uuid>, isSystem: bool) {
    requester != NIL && !isSystem && owner == Some(requester)
  }

  /** Ownership, account-state, currency and balance rules, in the order in which they reject. The plan is accepted exactly
      when all of them hold, and a rejection names one that does not. */
  function PlanCustomerTransfer(requester: Uuid, source: AccountSnapshot, destination: AccountSnapshot,
                                amount: int, policy: TransferPolicy): (r: Result<Plan, LedgerError>)
    ensures r.Success? ==>
              && r.value.Balanced()
              && r.value.debitLeg.account == source.id && r.value.creditLeg.account == destination.id
              && source.owner == Some(requester) && !source.isSystem
              && 0 < r.value.debitLeg.debit == amount <= source.available
              && source.status.Active? && destination.status.Active? && source.currency == destination.currency
              && (destination.isSystem ==> policy.allowSystemDestination)
              && (policy.requireDestinationOwnership ==> destination.owner == Some(requester) && !destination.isSystem)
    ensures r.Success? <==>
              && amount > 0 && source.id != destination.id
              && requester != NIL && source.owner == Some(requester) && !source.isSystem
              && (destination.isSystem ==> policy.allowSystemDestination)
              && (policy.requireDestinationOwnership ==> destination.owner == Some(requester) && !destination.isSystem)
              && source.status.Active? && destination.status.Active? && source.currency == destination.currency
              && amount <= source.available
    ensures r.Failure? ==>
              match r.error
              case InvalidAmount => amount <= 0
              case SameAccountTransfer => source.id == destination.id
              case SystemAccount => source.isSystem || (destination.isSystem && !policy.allowSystemDestination)
              case AccountOwnership =>
                requester == NIL || source.owner != Some(requester) || destination.owner != Some(requester) || destination.isSystem
              case AccountBlocked => !source.status.Active? || !destination.status.Active?
              case CurrencyMismatch => source.currency != destination.currency
              case InsufficientFunds => source.available < amount
              case _ => false
  {
    if amount <= 0 then Failure(InvalidAmount)
    else if source.id == destination.id then Failure(SameAccountTransfer)
    else if !CustomerCanOperate(requester, source.owner, source.isSystem) then
      Failure(if source.isSystem then SystemAccount else AccountOwnership)
    else if destination.isSystem && !policy.allowSystemDestination then Failure(SystemAccount)
    else if policy.requireDestinationOwnership && !CustomerCanOperate(requester, destination.owner, destination.isSystem) then
      Failure(AccountOwnership)
    else if !source.status.Active? || !destination.status.Active? then Failure(AccountBlocked)
    else if source.currency != destination.currency then Failure(CurrencyMismatch)
    else if source.available < amount then Failure(InsufficientFunds)
    else Success(Plan(Leg(source.id, amount, 0), Leg(destination.id, 0, amount)))
  }
}
