/** The service layer as it is written: row objects that are changed in place and flushed, a session
    that get_db commits or rolls back, and a cache on the side. Each service method is proved against
    the plan of its request, and a whole request against Serve. */
module Services {
  import opened Domain
  import opened Spec
  import opened Serial

  /** The committed tables. */
  class Database {
    var items: map<ItemId, Item>
    var orders: map<OrderId, Order>
    var ledger: seq<Movement>

    function Tables(): Db
      reads this
    {
      Db(items, orders, ledger)
    }
  }

  /** CacheService; enabled is false for CacheService(None). Redis errors are swallowed. */
  class CacheService {
    const enabled: bool
    var entries: map<ItemId, int>

    constructor (enabled: bool)
      ensures this.enabled == enabled && entries == map[]
    {
      this.enabled := enabled;
      entries := map[];
    }

    method GetStock(i: ItemId, fails: bool) returns (hit: Option<int>)
      ensures hit == Hit(enabled, entries, i, fails)
    {
      if !enabled {
        return None;
      }
      if fails || i !in entries {
        return None;
      }
      return Some(entries[i]);
    }

    method SetStock(i: ItemId, quantity: int, fails: bool)
      modifies this
      ensures entries == if enabled && !fails then old(entries)[i := quantity] else old(entries)
    {
      if enabled && !fails {
        entries := entries[i := quantity];
      }
    }
  }

  /** A MenuItem object: a loaded row whose stock and version are assigned to. */
  class MenuItem {
    const id: ItemId
    const threshold: int
    const price: int
    var stock: int
    var version: nat

    constructor (id: ItemId, row: Item)
      ensures this.id == id && Row() == row
    {
      this.id := id;
      this.threshold := row.threshold;
      this.price := row.price;
      this.stock := row.stock;
      this.version := row.version;
    }

    function Row(): Item
      reads this
    {
      Item(stock, version, threshold, price)
    }
  }

  /** An AsyncSession: the tables as its transaction sees them, and the item object it has loaded. A
      request loads at most one. */
  class Session {
    const database: Database
    var items: map<ItemId, Item>
    var orders: map<OrderId, Order>
    var ledger: seq<Movement>
    var loaded: MenuItem?

    constructor (database: Database)
      ensures this.database == database && View() == database.Tables() && loaded == null
    {
      this.database := database;
      items, orders, ledger := database.items, database.orders, database.ledger;
      loaded := null;
    }

    function View(): Db
      reads this
    {
      Db(items, orders, ledger)
    }

    /** The loaded object has no change that is not flushed. */
    predicate Clean()
      reads this, loaded
    {
      loaded != null ==> loaded.id in items && items[loaded.id] == loaded.Row()
    }

    method Flush()
      modifies this`items
      ensures items == if loaded == null then old(items) else old(items)[loaded.id := loaded.Row()]
      ensures Clean()
    {
      if loaded != null {
        items := items[loaded.id := loaded.Row()];
      }
    }

    method Commit()
      modifies this`items, database
      ensures items == if loaded == null then old(items) else old(items)[loaded.id := loaded.Row()]
      ensures database.Tables() == View()
    {
      Flush();
      database.items, database.orders, database.ledger := items, orders, ledger;
    }

    method Rollback()
      modifies this
      ensures View() == database.Tables() && loaded == null
    {
      items, orders, ledger := database.items, database.orders, database.ledger;
      loaded := null;
    }
  }

  class ItemRepository {
    const session: Session

    constructor (session: Session)
      ensures this.session == session
    {
      this.session := session;
    }

    method Create(id: ItemId, row: Item) returns (item: MenuItem)
      modifies session`items, session`loaded
      ensures fresh(item) && item.id == id && item.Row() == row && session.loaded == item && session.Clean()
      ensures session.items == old(session.items)[id := row]
    {
      item := new MenuItem(id, row);
      session.loaded := item;
      session.Flush();
    }

    method GetById(id: ItemId) returns (item: MenuItem?)
      requires session.loaded == null
      modifies session`loaded
      ensures item == null <==> id !in session.items
      ensures item != null ==> fresh(item) && item.id == id && item.Row() == session.items[id]
      ensures session.loaded == item
    {
      if id !in session.items {
        return null;
      }
      item := new MenuItem(id, session.items[id]);
      session.loaded := item;
    }

    /** Within one transaction the lock adds nothing to what GetById returns. */
    method GetByIdWithLock(id: ItemId) returns (item: MenuItem?)
      requires session.loaded == null
      modifies session`loaded
      ensures item == null <==> id !in session.items
      ensures item != null ==> fresh(item) && item.id == id && item.Row() == session.items[id]
      ensures session.loaded == item
    {
      item := GetById(id);
    }

    method Save(item: MenuItem)
      requires session.loaded == item
      modifies session`items
      ensures session.items == old(session.items)[item.id := item.Row()] && session.Clean()
    {
      session.Flush();
    }
  }

  class OrderRepository {
    const session: Session

    constructor (session: Session)
      ensures this.session == session
    {
      this.session := session;
    }

    method Create(id: OrderId, order: Order)
      requires session.Clean()
      modifies session`items, session`orders
      ensures session.items == old(session.items)
      ensures session.orders == old(session.orders)[id := order]
    {
      session.orders := session.orders[id := order];
      session.Flush();
      assert session.items == old(session.items);
    }

    method GetById(id: OrderId) returns (order: Option<Order>)
      ensures order == if id in session.orders then Some(session.orders[id]) else None
    {
      if id in session.orders {
        return Some(session.orders[id]);
      }
      return None;
    }

    /** UPDATE orders SET status, version = version + 1 WHERE id and version match. */
    method TransitionStatus(id: OrderId, expected: nat, status: Status) returns (updated: bool)
      modifies session`orders
      ensures updated == (id in old(session.orders) && old(session.orders)[id].version == expected)
      ensures session.orders ==
              if updated then old(session.orders)[id := NewStatus(old(session.orders)[id], status)]
              else old(session.orders)
    {
      updated := id in session.orders && session.orders[id].version == expected;
      if updated {
        var o := session.orders[id];
        session.orders := session.orders[id := o.(status := status, version := o.version + 1)];
      }
    }
  }

  class StockRepository {
    const session: Session

    constructor (session: Session)
      ensures this.session == session
    {
      this.session := session;
    }

    /** Appends the movement and flushes, which also writes the loaded item. */
    method CreateMovement(m: Movement)
      modifies session`items, session`ledger
      ensures session.ledger == old(session.ledger) + [m]
      ensures session.items == if session.loaded == null then old(session.items)
                               else old(session.items)[session.loaded.id := session.loaded.Row()]
      ensures session.Clean()
    {
      session.ledger := session.ledger + [m];
      session.Flush();
    }
  }

  class OrderService {
    const session: Session
    const orders: OrderRepository
    const items: ItemRepository
    const stock: StockRepository
    const cache: CacheService

    predicate Wired() {
      orders.session == session && items.session == session && stock.session == session
    }

    constructor (session: Session, cache: CacheService)
      ensures Wired() && this.session == session && this.cache == cache
    {
      this.session := session;
      this.cache := cache;
      orders := new OrderRepository(session);
      items := new ItemRepository(session);
      stock := new StockRepository(session);
    }

    method PlaceOrder(id: OrderId, item: ItemId, quantity: int) returns (r: Outcome)
      requires Wired() && session.loaded == null
      modifies session
      ensures var plan := Plan(old(session.View()), Request.PlaceOrder(id, item, quantity));
              r == plan.outcome && session.View() == Apply(old(session.View()), plan.writes)
      ensures session.Clean()
    {
      var found := items.GetById(item);
      if found == null {
        return NotFound;
      }
      orders.Create(id, Order(item, quantity, Pending, 1));
      return Success;
    }

    method ConfirmOrder(id: OrderId, glitch: bool) returns (r: Outcome)
      requires Wired() && session.loaded == null
      modifies session, cache
      ensures var plan := Plan(old(session.View()), Confirm(id));
              && r == plan.outcome && session.View() == Apply(old(session.View()), plan.writes)
              && cache.entries == CacheWith(cache.enabled, old(cache.entries), plan.writes, glitch)
      ensures id in old(session.orders) && old(session.orders)[id].status == Pending &&
              old(session.orders)[id].item in old(session.items) ==>
                var o := old(session.orders)[id]; var row := old(session.items)[o.item];
                if row.stock < o.quantity then
                  && r == InsufficientStock
                  && session.orders == old(session.orders)[id := Order(o.item, o.quantity, Rejected, o.version + 1)]
                  && session.items == old(session.items) && session.ledger == old(session.ledger)
                else
                  && r == Success
                  && session.orders == old(session.orders)[id := Order(o.item, o.quantity, Confirmed, o.version + 1)]
                  && session.items == old(session.items)[o.item := Item(row.stock - o.quantity, row.version + 1,
                                                                        row.threshold, row.price)]
      ensures session.Clean()
    {
      var found := orders.GetById(id);
      if found.None? {
        return NotFound;
      }
      var order := found.value;
      if !order.status.CanTransitionTo(Confirmed) {
        return InvalidTransition;
      }
      var item := items.GetByIdWithLock(order.item);
      if item == null {
        return NotFound;
      }
      if item.stock < order.quantity {
        var rejected := orders.TransitionStatus(id, order.version, Rejected);
        if !rejected {
          return Conflict;
        }
        return InsufficientStock;
      }
      var before := item.stock;
      item.stock := item.stock - order.quantity;
      item.version := item.version + 1;
      stock.CreateMovement(Movement(item.id, Some(id), Deduction, -order.quantity, before, item.stock));
      items.Save(item);
      cache.SetStock(item.id, item.stock, glitch);
      var updated := orders.TransitionStatus(id, order.version, Confirmed);
      if !updated {
        return Conflict;
      }
      return Success;
    }

    method ShipOrder(id: OrderId) returns (r: Outcome)
      requires Wired() && session.loaded == null
      modifies session
      ensures var plan := Plan(old(session.View()), Ship(id));
              r == plan.outcome && session.View() == Apply(old(session.View()), plan.writes)
      ensures session.Clean()
    {
      r := Transition(id, Shipped);
    }

    method DeliverOrder(id: OrderId) returns (r: Outcome)
      requires Wired() && session.loaded == null
      modifies session
      ensures var plan := Plan(old(session.View()), Deliver(id));
              r == plan.outcome && session.View() == Apply(old(session.View()), plan.writes)
      ensures session.Clean()
    {
      r := Transition(id, Delivered);
    }

    /** The part of a cancel that puts the quantity of the order back. */
    method Restore(id: OrderId, order: Order, glitch: bool)
      requires Wired() && session.loaded == null
      modifies session, cache
      ensures session.orders == old(session.orders)
      ensures if order.item in old(session.items) then
                var row := old(session.items)[order.item]; var quantity := row.stock + order.quantity;
                && session.items == old(session.items)[order.item := Item(quantity, row.version + 1,
                                                                          row.threshold, row.price)]
                && session.ledger == old(session.ledger) + [Movement(order.item, Some(id), Restoration, order.quantity,
                                                                     row.stock, quantity)]
                && cache.entries == if cache.enabled && !glitch then old(cache.entries)[order.item := quantity]
                                    else old(cache.entries)
              else
                && session.items == old(session.items) && session.ledger == old(session.ledger)
                && cache.entries == old(cache.entries)
      ensures session.Clean()
    {
      var item := items.GetByIdWithLock(order.item);
      if item != null {
        var before := item.stock;
        item.stock := item.stock + order.quantity;
        item.version := item.version + 1;
        stock.CreateMovement(Movement(item.id, Some(id), Restoration, order.quantity, before, item.stock));
        items.Save(item);
        cache.SetStock(item.id, item.stock, glitch);
      }
    }

    method CancelOrder(id: OrderId, glitch: bool) returns (r: Outcome)
      requires Wired() && session.loaded == null
      modifies session, cache
      ensures var plan := Plan(old(session.View()), Cancel(id));
              && r == plan.outcome && session.View() == Apply(old(session.View()), plan.writes)
              && cache.entries == CacheWith(cache.enabled, old(cache.entries), plan.writes, glitch)
      ensures id in old(session.orders) ==>
                var o := old(session.orders)[id];
                if o.status == Delivered || o.status == Cancelled || o.status == Rejected then r == InvalidTransition
                else
                  && r == Success
                  && session.orders == old(session.orders)[id := Order(o.item, o.quantity, Cancelled, o.version + 1)]
                  && (o.status != Pending && o.item in old(session.items) ==>
                        && o.item in session.items
                        && session.items[o.item].stock == old(session.items)[o.item].stock + o.quantity)
      ensures session.Clean()
    {
      var found := orders.GetById(id);
      if found.None? {
        return NotFound;
      }
      var order := found.value;
      if !order.status.CanTransitionTo(Cancelled) {
        return InvalidTransition;
      }
      if order.status in STOCK_HOLDING_STATES {
        Restore(id, order, glitch);
      }
      var updated := orders.TransitionStatus(id, order.version, Cancelled);
      if !updated {
        return Conflict;
      }
      return Success;
    }

    /** The body that ship and deliver share. */
    method Transition(id: OrderId, target: Status) returns (r: Outcome)
      requires Wired() && session.loaded == null && target in {Shipped, Delivered}
      modifies session
      ensures var plan := Plan(old(session.View()), if target == Shipped then Ship(id) else Deliver(id));
              r == plan.outcome && session.View() == Apply(old(session.View()), plan.writes)
      ensures id in old(session.orders) ==>
                var o := old(session.orders)[id];
                if o.status == (if target == Shipped then Confirmed else Shipped) then
                  && r == Success
                  && session.orders == old(session.orders)[id := Order(o.item, o.quantity, target, o.version + 1)]
                else r == InvalidTransition && session.View() == old(session.View())
      ensures session.Clean()
    {
      var found := orders.GetById(id);
      if found.None? {
        return NotFound;
      }
      var order := found.value;
      if !order.status.CanTransitionTo(target) {
        return InvalidTransition;
      }
      var updated := orders.TransitionStatus(id, order.version, target);
      if !updated {
        return Conflict;
      }
      return Success;
    }
  }

  class ItemService {
    const session: Session
    const items: ItemRepository
    const stock: StockRepository
    const cache: CacheService

    predicate Wired() {
      items.session == session && stock.session == session
    }

    constructor (session: Session, cache: CacheService)
      ensures Wired() && this.session == session && this.cache == cache
    {
      this.session := session;
      this.cache := cache;
      items := new ItemRepository(session);
      stock := new StockRepository(session);
    }

    method CreateItem(id: ItemId, quantity: int, threshold: int, price: int, glitch: bool) returns (r: Outcome)
      requires Wired() && session.loaded == null
      modifies session, cache
      ensures var plan := Plan(old(session.View()), Request.CreateItem(id, quantity, threshold, price));
              && r == plan.outcome && session.View() == Apply(old(session.View()), plan.writes)
              && cache.entries == CacheWith(cache.enabled, old(cache.entries), plan.writes, glitch)
      ensures r == Success && session.items == old(session.items)[id := Item(quantity, 1, threshold, price)]
      ensures session.ledger == old(session.ledger) + [Movement(id, None, Adjustment, quantity, 0, quantity)]
      ensures session.Clean()
    {
      var item := items.Create(id, Item(quantity, 1, threshold, price));
      stock.CreateMovement(Movement(item.id, None, Adjustment, quantity, 0, quantity));
      cache.SetStock(item.id, item.stock, glitch);
      return Success;
    }

    method AdjustStock(id: ItemId, delta: int, glitch: bool) returns (r: Outcome)
      requires Wired() && session.loaded == null
      modifies session, cache
      ensures var plan := Plan(old(session.View()), Request.AdjustStock(id, delta));
              && r == plan.outcome && session.View() == Apply(old(session.View()), plan.writes)
              && cache.entries == CacheWith(cache.enabled, old(cache.entries), plan.writes, glitch)
      ensures session.Clean()
    {
      var item := items.GetByIdWithLock(id);
      if item == null {
        return NotFound;
      }
      var before := item.stock;
      var quantity := before + delta;
      if quantity < 0 {
        return InsufficientStock;
      }
      item.stock := quantity;
      item.version := item.version + 1;
      stock.CreateMovement(Movement(item.id, None, Adjustment, delta, before, quantity));
      items.Save(item);
      cache.SetStock(item.id, item.stock, glitch);
      return Success;
    }
  }

  class StockService {
    const items: ItemRepository
    const cache: CacheService

    constructor (session: Session, cache: CacheService)
      ensures items.session == session && this.cache == cache && fresh(items)
    {
      this.cache := cache;
      items := new ItemRepository(session);
    }

    /** The cached quantity is assigned to the loaded row and left there, unflushed. */
    method GetStock(id: ItemId, glitch: bool) returns (item: MenuItem?)
      requires items.session.loaded == null
      modifies items.session`loaded
      ensures items.session.loaded == item
      ensures item == null <==> id !in items.session.items
      ensures item != null ==>
                && fresh(item) && item.id == id
                && var hit := Hit(cache.enabled, cache.entries, id, glitch);
                   var row := items.session.items[id];
                   item.Row() == row.(stock := if hit.Some? then hit.value else row.stock)
    {
      var hit := cache.GetStock(id, glitch);
      item := items.GetById(id);
      if item == null {
        return;
      }
      if hit.Some? {
        item.stock := hit.value;
      }
    }
  }

  // ---- One request, from its endpoint to the end of its session ----

  /** The end of get_db. */
  method Close(session: Session, policy: Policy, r: Outcome)
    modifies session, session.database
    ensures var view := Db(if old(session.loaded) == null then old(session.items)
                           else old(session.items)[old(session.loaded).id := old(session.loaded.Row())],
                           old(session.orders), old(session.ledger));
            session.database.Tables() == if policy.Commits(r) then view else old(session.database.Tables())
  {
    if policy.Commits(r) {
      session.Commit();
    } else {
      session.Rollback();
    }
  }

  /** The endpoints: which service method a mutating request calls. */
  method Dispatch(session: Session, cache: CacheService, req: Request, glitch: bool) returns (r: Outcome)
    requires !req.GetStock? && session.loaded == null
    modifies session, cache
    ensures var plan := Plan(old(session.View()), req);
            && r == plan.outcome && session.View() == Apply(old(session.View()), plan.writes)
            && cache.entries == CacheWith(cache.enabled, old(cache.entries), plan.writes, glitch)
    ensures session.Clean()
  {
    var orders := new OrderService(session, cache);
    var items := new ItemService(session, cache);
    match req
    case CreateItem(id, stock, threshold, price) => r := items.CreateItem(id, stock, threshold, price, glitch);
    case PlaceOrder(id, item, quantity) => r := orders.PlaceOrder(id, item, quantity);
    case AdjustStock(item, delta) => r := items.AdjustStock(item, delta, glitch);
    case Confirm(id) => r := orders.ConfirmOrder(id, glitch);
    case Ship(id) => r := orders.ShipOrder(id);
    case Deliver(id) => r := orders.DeliverOrder(id);
    case Cancel(id) => r := orders.CancelOrder(id, glitch);
  }

  /** A mutating request from the opening of its session to the end of get_db. */
  method Handle(database: Database, cache: CacheService, policy: Policy, req: Request, glitch: bool)
    returns (r: Outcome)
    requires !req.GetStock?
    modifies database, cache
    ensures var served := Serve(policy, cache.enabled, Shop(old(database.Tables()), old(cache.entries)), req, glitch);
            Shop(database.Tables(), cache.entries) == served.shop && r == served.reply.outcome
  {
    var session := new Session(database);
    r := Dispatch(session, cache, req, glitch);
    assert session.loaded != null ==> session.items[session.loaded.id := session.loaded.Row()] == session.items;
    Close(session, policy, r);
  }

  /** The stock endpoint: its commit flushes the row that holds the cached quantity. */
  method HandleGetStock(database: Database, cache: CacheService, policy: Policy, id: ItemId, glitch: bool)
    returns (reply: Reply)
    modifies database
    ensures var shop := Shop(old(database.Tables()), cache.entries);
            var served := Serve(policy, cache.enabled, shop, GetStock(id), glitch);
            database.Tables() == served.shop.db && cache.entries == served.shop.cache && reply == served.reply
  {
    var session := new Session(database);
    var service := new StockService(session, cache);
    var item := service.GetStock(id, glitch);
    if item == null {
      reply := Reply(NotFound, None);
    } else {
      reply := Reply(Success, Some(item.stock));
    }
    Close(session, policy, reply.outcome);
  }
}
