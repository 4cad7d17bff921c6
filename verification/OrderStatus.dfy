/** The order state machine shared by Order, Notification and the gateway. */
module OrderStatuses {

  datatype OrderStatus =
    | PENDING
    | INVENTORY_RESERVED
    | PAID
    | CONFIRMED
    | SHIPPED
    | DELIVERED
    | CANCELLED
    | FAILED

  const TERMINAL_STATUSES: set<OrderStatus> := {DELIVERED, CANCELLED, FAILED}

  /** Money has been taken, so cancelling requires a refund. */
  const PAID_STATUSES: set<OrderStatus> := {PAID, CONFIRMED, SHIPPED, DELIVERED}

  const CUSTOMER_CANCELLABLE: set<OrderStatus> := {PENDING, INVENTORY_RESERVED, PAID, CONFIRMED}

  function AllowedTransitions(current: OrderStatus): set<OrderStatus> {
    match current
    case PENDING => {INVENTORY_RESERVED, FAILED, CANCELLED}
    case INVENTORY_RESERVED => {PAID, FAILED, CANCELLED}
    case PAID => {CONFIRMED, CANCELLED}
    case CONFIRMED => {SHIPPED, CANCELLED}
    case SHIPPED => {DELIVERED}
    case DELIVERED => {}
    case CANCELLED => {}
    case FAILED => {}
  }

  predicate CanTransition(current: OrderStatus, target: OrderStatus) {
    target in AllowedTransitions(current)
  }

  predicate IsTerminal(status: OrderStatus) {
    status in TERMINAL_STATUSES
  }

  /** How far an order can be from its creation, counted in transitions. */
  function Rank(status: OrderStatus): nat {
    match status
    case PENDING => 0
    case INVENTORY_RESERVED => 1
    case PAID => 2
    case CONFIRMED => 3
    case SHIPPED => 4
    case DELIVERED => 5
    case CANCELLED => 5
    case FAILED => 5
  }

  /** A path through the machine: every step is allowed. */
  ghost predicate IsPath(path: seq<OrderStatus>) {
    forall i {:trigger path[i]} :: 0 <= i < |path| - 1 ==> CanTransition(path[i], path[i + 1])
  }

  /** Every path is acyclic, so none is longer than six statuses. */
  lemma {:induction false} PathsAreShort(path: seq<OrderStatus>)
    requires |path| > 0 && IsPath(path)
    ensures |path| <= 1 + Rank(path[|path| - 1]) - Rank(path[0])
    ensures |path| <= 6
  {
    if |path| > 1 {
      var init := path[..|path| - 1];
      forall i {:trigger init[i]} | 0 <= i < |init| - 1
        ensures CanTransition(init[i], init[i + 1])
      {
        assert path[i] == init[i];
      }
      PathsAreShort(init);
      assert CanTransition(path[|path| - 2], path[|path| - 1]);
    }
  }

  /** The terminal statuses are exactly the ones nothing leaves. */
  lemma TerminalIffNothingLeaves(status: OrderStatus)
    ensures IsTerminal(status) <==> forall target :: !CanTransition(status, target)
  {
    if !IsTerminal(status) {
      var target :| target in AllowedTransitions(status);
      assert CanTransition(status, target);
    }
  }
}
