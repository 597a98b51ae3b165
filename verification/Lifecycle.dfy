/** The declared payment lifecycle (payment/domain/lifecycle.go). */
module Lifecycle {

  datatype Status =
    | Draft
    | AwaitingConfirmation
    | Scheduled
    | Processing
    | Booked
    | Failed
    | Cancelled

  /** The transition table. */
  predicate Allowed(from: Status, to: Status) {
    match from
    case Draft => to.Cancelled?
    case AwaitingConfirmation => to.Scheduled? || to.Processing? || to.Cancelled?
    case Scheduled => to.Processing? || to.Cancelled?
    case Processing => to.Scheduled? || to.Booked? || to.Failed?
    case _ => false
  }

  predicate Terminal(status: Status) {
    status.Booked? || status.Failed? || status.Cancelled?
  }

  /** The two declared transitions of a confirmation that books, or fails, at once. */
  predicate DoubleChange(from: Status, to: Status) {
    from.AwaitingConfirmation? && (to.Booked? || to.Failed?)
  }

  /** What one committed transaction may do to a status. */
  predicate CommittedChange(from: Status, to: Status) {
    from == to || Allowed(from, to) || DoubleChange(from, to)
  }
}
