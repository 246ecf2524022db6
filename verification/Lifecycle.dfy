/** The lifecycle states of one agent task and the table of legal moves between them. */
module Lifecycle {

  datatype ParkedReason = FatalError | QuotaBlocked | MaxRoundsExceeded | TransientRetryExhausted

  datatype LifecycleState =
    | Running
    | Idle
    | Waiting(until: nat)
    | Parked(reason: ParkedReason, at: nat)
    | Retrying(attempt: nat, maxAttempts: nat, retryAt: nat)
  {
    /** A state holding an armed park: the two states a park cancel may end. */
    predicate WakePark() { Waiting? || Retrying? }
  }

  /** The table of legal moves. Birth is construction and termination is not a move. */
  predicate Legal(from: LifecycleState, to: LifecycleState) {
    match from
    case Idle => to.Running?
    case Running => !to.Running?
    case Waiting(_) => to.Running? || to.Waiting? || to.Idle?
    case Parked(_, _) => to.Running? || to.Idle?
    case Retrying(_, _, _) => to.Running? || to.Retrying? || to.Idle?
  }
}
