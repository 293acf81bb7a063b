/** app/services/order_state.py: the order transition table. */
module OrderState {
  import opened Results
  import opened Tables

  function Targets(current: OrderStatus): set<OrderStatus> {
    match current
    case New => {Assigned, Cancelled}
    case Assigned => {WaitingPayment, Cancelled}
    case WaitingPayment => {InProgress, Assigned, Cancelled}
    case InProgress => {Delivered, Disputed}
    case Delivered => {Completed, Disputed}
    case Disputed => {Completed, Refunded}
    case Completed => {}
    case Cancelled => {}
    case Refunded => {}
  }

  predicate CanTransition(current: OrderStatus, target: OrderStatus) {
    target in Targets(current)
  }

  function AssertTransition(current: OrderStatus, target: OrderStatus): Result<()> {
    Require(CanTransition(current, target), InvalidTransition)
  }

  /** Escrow holds the order's money. */
  predicate Funded(s: OrderStatus) {
    s.InProgress? || s.Delivered? || s.Disputed?
  }

  /** The order's money has left escrow again. */
  predicate Settled(s: OrderStatus) {
    s.Completed? || s.Refunded?
  }

  /** The money phases of an order: before payment, funded, settled. */
  function Phase(s: OrderStatus): nat {
    if Settled(s) then 2 else if Funded(s) then 1 else 0
  }

  /** The table never moves an order back to an earlier money phase, skips the funded phase on the way to
      the settled one, and lets nothing out of a settled or cancelled order; WAITING_PAYMENT is the only
      way into escrow. */
  lemma PhasesAdvance(current: OrderStatus, target: OrderStatus)
    requires CanTransition(current, target)
    ensures Phase(current) <= Phase(target) <= Phase(current) + 1
    ensures Phase(current) == 0 && Phase(target) == 1 <==> current == WaitingPayment && target == InProgress
    ensures !Settled(current) && !current.Cancelled?
  {
  }

  /** Read the other way round: where each status can be reached from. */
  lemma Sources(current: OrderStatus, target: OrderStatus)
    ensures CanTransition(current, target)
       <==> match target
            case New => false
            case Assigned => current.New? || current.WaitingPayment?
            case WaitingPayment => current.Assigned?
            case InProgress => current.WaitingPayment?
            case Delivered => current.InProgress?
            case Completed => current.Delivered? || current.Disputed?
            case Cancelled => current.New? || current.Assigned? || current.WaitingPayment?
            case Disputed => current.InProgress? || current.Delivered?
            case Refunded => current.Disputed?
  {
  }
}
