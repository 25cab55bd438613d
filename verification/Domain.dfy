/** The entities of the stock and order engine, the order state machine and the
    errors a service method can raise. */
module Domain {

  datatype Option<+T> = None | Some(value: T)

  // UUID primary keys, abstracted to identifiers.
  type ItemId = nat
  type OrderId = nat

  // ---- Order state machine ----

  datatype Status = Pending | Confirmed | Shipped | Delivered | Cancelled | Rejected {

    function ValidTransitions(): set<Status> {
      match this
      case Pending => {Confirmed, Rejected, Cancelled}
      case Confirmed => {Shipped, Cancelled}
      case Shipped => {Delivered, Cancelled}
      case Delivered => {}
      case Cancelled => {}
      case Rejected => {}
    }

    predicate CanTransitionTo(next: Status) {
      next in ValidTransitions()
    }
  }

  const STOCK_HOLDING_STATES: set<Status> := {Confirmed, Shipped, Delivered}
  const TERMINAL_STATES: set<Status> := {Rejected, Delivered, Cancelled}

  /** The ways into each state; the terminal states are exactly the states without a way out, which are
      those that cannot be cancelled; and the only way to leave the stock-holding states is a
      cancellation. */
  lemma TransitionTable(s: Status, next: Status)
    ensures s in TERMINAL_STATES <==> forall n: Status :: !s.CanTransitionTo(n)
    ensures s in TERMINAL_STATES <==> s == Delivered || s == Cancelled || s == Rejected
    ensures s.CanTransitionTo(Cancelled) <==> s !in TERMINAL_STATES
    ensures s.CanTransitionTo(Confirmed) <==> s == Pending
    ensures s.CanTransitionTo(Rejected) <==> s == Pending
    ensures s.CanTransitionTo(Shipped) <==> s == Confirmed
    ensures s.CanTransitionTo(Delivered) <==> s == Shipped
    ensures !s.CanTransitionTo(Pending)
    ensures s in STOCK_HOLDING_STATES <==> s == Confirmed || s == Shipped || s == Delivered
    ensures s.CanTransitionTo(next) && s in STOCK_HOLDING_STATES ==> next in STOCK_HOLDING_STATES || next == Cancelled
    ensures s.CanTransitionTo(next) && s !in STOCK_HOLDING_STATES && next in STOCK_HOLDING_STATES ==> next == Confirmed
  {
    if s !in TERMINAL_STATES {
      assert s.CanTransitionTo(Cancelled);
    }
  }

  // ---- Rows ----

  datatype MovementType = Deduction | Restoration | Adjustment

  /** A menu_items row; the price is in cents. */
  datatype Item = Item(stock: int, version: nat, threshold: int, price: int)

  /** An orders row. */
  datatype Order = Order(item: ItemId, quantity: int, status: Status, version: nat)

  /** A stock_movements row. */
  datatype Movement = Movement(item: ItemId, order: Option<OrderId>, kind: MovementType,
                               delta: int, before: int, after: int)

  // ---- Requests and replies ----

  /** One API request. Creating requests carry the fresh identifier of the new row. */
  datatype Request =
    | CreateItem(newItem: ItemId, stock: int, threshold: int, price: int)
    | PlaceOrder(newOrder: OrderId, item: ItemId, quantity: int)
    | AdjustStock(item: ItemId, delta: int)
    | Confirm(order: OrderId)
    | Ship(order: OrderId)
    | Deliver(order: OrderId)
    | Cancel(order: OrderId)
    | GetStock(item: ItemId)
  {
    predicate OnOrder() {
      Confirm? || Ship? || Deliver? || Cancel?
    }

    /** The status an order request asks for. */
    function Target(): Status
      requires OnOrder()
    {
      match this
      case Confirm(_) => Confirmed
      case Ship(_) => Shipped
      case Deliver(_) => Delivered
      case Cancel(_) => Cancelled
    }

    /** What the request schemas guarantee before a service method runs. */
    predicate WellFormed() {
      && (CreateItem? ==> stock >= 0 && threshold >= 0 && price > 0)
      && (PlaceOrder? ==> quantity > 0)
    }
  }

  /** How a service method ends: normally, or with one of its errors. */
  datatype Outcome = Success | NotFound | InvalidTransition | InsufficientStock | Conflict

  /** Which errors the caller of the service turns into an HTTPException. get_db commits after a
      normal end and after an HTTPException, and rolls back after any other error. */
  datatype Policy = Policy(mapped: set<Outcome>) {
    predicate Commits(o: Outcome) {
      o == Success || o in mapped
    }
  }

  /** The order endpoints map all four errors. */
  const ROUTER_POLICY := Policy({NotFound, InvalidTransition, InsufficientStock, Conflict})

  /** A caller that maps none of them, as the concurrency tests do. */
  const RAISING_POLICY := Policy({})

  /** Every end of an order request commits under the router, and only success under the raising caller. */
  lemma PolicyTable(policy: Policy, o: Outcome)
    ensures ROUTER_POLICY.Commits(o)
    ensures RAISING_POLICY.Commits(o) <==> o == Success
    ensures policy.Commits(Success)
    ensures o != Success ==> (policy.Commits(o) <==> o in policy.mapped)
  {
  }
}
