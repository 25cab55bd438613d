/** The tables, and the reference meaning of a request that runs alone and atomically. */
module Spec {
  import opened Domain

  /** The committed tables; the ledger is stock_movements in commit order. */
  datatype Db = Db(items: map<ItemId, Item>, orders: map<OrderId, Order>, ledger: seq<Movement>)

  const EMPTY_DB := Db(map[], map[], [])

  datatype Row<K, V> = Row(key: K, row: V)

  /** What a transaction has flushed: every request writes at most one row of each table. */
  datatype Writes = Writes(item: Option<Row<ItemId, Item>>, order: Option<Row<OrderId, Order>>,
                           movement: Option<Movement>)

  const NOTHING := Writes(None, None, None)

  function Apply(db: Db, w: Writes): Db {
    Db(if w.item.Some? then db.items[w.item.value.key := w.item.value.row] else db.items,
       if w.order.Some? then db.orders[w.order.value.key := w.order.value.row] else db.orders,
       if w.movement.Some? then db.ledger + [w.movement.value] else db.ledger)
  }

  // ---- The writes of the service methods ----

  /** A new item together with the movement that audits its initial stock. */
  function Creation(id: ItemId, stock: int, threshold: int, price: int): Writes {
    Writes(Some(Row(id, Item(stock, 1, threshold, price))), None,
           Some(Movement(id, None, Adjustment, stock, 0, stock)))
  }

  /** A stock change of a locked item row together with its movement. */
  function Moved(id: ItemId, row: Item, order: Option<OrderId>, kind: MovementType, delta: int): Writes {
    Writes(Some(Row(id, row.(stock := row.stock + delta, version := row.version + 1))), None,
           Some(Movement(id, order, kind, delta, row.stock, row.stock + delta)))
  }

  function NewStatus(o: Order, status: Status): Order {
    o.(status := status, version := o.version + 1)
  }

  // ---- One request, atomically ----

  datatype Planned = Planned(outcome: Outcome, writes: Writes)

  /** How a request ends, and what it writes, when nothing else is running. */
  function Plan(db: Db, req: Request): Planned {
    match req
    case CreateItem(id, stock, threshold, price) =>
      Planned(Success, Creation(id, stock, threshold, price))
    case PlaceOrder(id, item, quantity) =>
      if item !in db.items then Planned(NotFound, NOTHING)
      else Planned(Success, NOTHING.(order := Some(Row(id, Order(item, quantity, Pending, 1)))))
    case AdjustStock(item, delta) =>
      if item !in db.items then Planned(NotFound, NOTHING)
      else if db.items[item].stock + delta < 0 then Planned(InsufficientStock, NOTHING)
      else Planned(Success, Moved(item, db.items[item], None, Adjustment, delta))
    case GetStock(item) =>
      Planned(if item in db.items then Success else NotFound, NOTHING)
    case _ =>
      if req.order !in db.orders then Planned(NotFound, NOTHING)
      else if !db.orders[req.order].status.CanTransitionTo(req.Target()) then Planned(InvalidTransition, NOTHING)
      else PlanTransition(db, req, db.orders[req.order])
  }

  /** The plan of a request for an allowed transition of order o. */
  function PlanTransition(db: Db, req: Request, o: Order): Planned
    requires req.OnOrder()
  {
    match req
    case Confirm(id) =>
      if o.item !in db.items then Planned(NotFound, NOTHING)
      else if db.items[o.item].stock < o.quantity then
        Planned(InsufficientStock, NOTHING.(order := Some(Row(id, NewStatus(o, Rejected)))))
      else
        Planned(Success, Moved(o.item, db.items[o.item], Some(id), Deduction, -o.quantity)
                         .(order := Some(Row(id, NewStatus(o, Confirmed)))))
    case Cancel(id) =>
      var order := Some(Row(id, NewStatus(o, Cancelled)));
      if o.status in STOCK_HOLDING_STATES && o.item in db.items then
        Planned(Success, Moved(o.item, db.items[o.item], Some(id), Restoration, o.quantity).(order := order))
      else
        Planned(Success, NOTHING.(order := order))
    case _ =>
      Planned(Success, NOTHING.(order := Some(Row(req.order, NewStatus(o, req.Target())))))
  }

  /** The outcome, and for a successful get_stock the quantity that is reported. */
  datatype Reply = Reply(outcome: Outcome, quantity: Option<int>)

  /** The reply to an atomic request. */
  function Answer(db: Db, req: Request): Reply {
    Reply(Plan(db, req).outcome,
          if req.GetStock? && req.item in db.items then Some(db.items[req.item].stock) else None)
  }

  /** The tables after one atomic request, given which errors commit. */
  function Atomic(policy: Policy, db: Db, req: Request): Db {
    var plan := Plan(db, req);
    if policy.Commits(plan.outcome) then Apply(db, plan.writes) else db
  }

  // ---- Table constraints ----

  /** The (status, version) pairs of the order life cycle. */
  predicate LifeCycle(status: Status, version: nat) {
    match status
    case Pending => version == 1
    case Rejected => version == 2
    case Confirmed => version == 2
    case Shipped => version == 3
    case Delivered => version == 4
    case Cancelled => 2 <= version <= 4
  }

  predicate ItemOk(i: Item) {
    i.stock >= 0 && i.threshold >= 0 && i.price > 0 && i.version >= 1
  }

  /** The check constraints, the foreign key and the life cycle. */
  ghost predicate DbOk(db: Db) {
    && (forall i | i in db.items :: ItemOk(db.items[i]))
    && (forall o | o in db.orders ::
          && db.orders[o].quantity > 0
          && db.orders[o].item in db.items
          && LifeCycle(db.orders[o].status, db.orders[o].version))
  }

  /** A creating request names a row that does not exist yet. */
  predicate FreshIn(db: Db, req: Request) {
    && (req.CreateItem? ==> req.newItem !in db.items)
    && (req.PlaceOrder? ==> req.newOrder !in db.orders)
  }
}
