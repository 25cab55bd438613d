/** What each request answers, and exactly what it leaves, when no other request interrupts it: its
    statements run on the engine from any reachable state in which nothing else is open, under any
    policy and with any cache. Statuses, versions, rows and movements are written out. */
module Outcomes {
  import opened Domain
  import opened Spec
  import opened Machine
  import opened Safety
  import opened Progress
  import opened Serial

  /** A whole request that nobody interrupts. */
  ghost predicate Uninterrupted(w: World, t: Tid, req: Request, acts: seq<Action>) {
    && Reachable(w) && w.txs == map[]
    && acts != [] && Runnable(w, acts) && Solo(acts, t, req) && Exec(w, acts).txs == map[]
  }

  /** The request had this reply and left these tables; and this cache, if no cache call has failed,
      except for entries that have expired. */
  ghost predicate Leaves(w: World, w': World, acts: seq<Action>, req: Request, outcome: Outcome,
                         quantity: Option<int>, db: Db, cache: map<ItemId, int>) {
    && w'.db == db
    && |w'.ended| == |w.ended| + 1 && w'.ended[..|w.ended|] == w.ended
    && (!Glitched(acts) ==> Kept(NoExpiry(acts), w'.cache, cache))
    && var e := w'.ended[|w.ended|];
       e.req == req && e.outcome == outcome && e.quantity == quantity
  }

  /** The cache after a set_stock. */
  function Cached(w: World, i: ItemId, stock: int): map<ItemId, int> {
    if w.cacheOn then w.cache[i := stock] else w.cache
  }

  lemma ServedLeaves(w: World, t: Tid, req: Request, acts: seq<Action>)
    requires Uninterrupted(w, t, req, acts) && !req.GetStock?
    ensures var served := Serve(w.policy, w.cacheOn, Shop(w.db, w.cache), req, false);
            Leaves(w, Exec(w, acts), acts, req, served.reply.outcome, None, served.shop.db, served.shop.cache)
    ensures DbOk(w.db)
  {
    ReachableInv(w);
    var g := SoloServes(w, t, req, acts);
  }

  /** Without an interruption every valid request is answered. */
  lemma EveryRequestIsAnswered(w: World, t: Tid, req: Request) returns (acts: seq<Action>)
    requires Reachable(w) && w.txs == map[]
    requires req.CreateItem? ==>
               req.newItem !in w.db.items && req.stock >= 0 && req.threshold >= 0 && req.price > 0
    requires req.PlaceOrder? ==> req.newOrder !in w.db.orders && req.quantity > 0
    ensures Uninterrupted(w, t, req, acts) && !Glitched(acts) && NoExpiry(acts)
  {
    ReachableInv(w);
    acts := [Begin(t, req)];
    assert acts[..0] == [] && Exec(w, []) == w;
    NextKeepsInv(w, Begin(t, req));
    acts := GoesOn(w, t, req, acts);
  }

  /** A Begin followed by statements without a glitch. */
  ghost predicate Plain(acts: seq<Action>, t: Tid, req: Request) {
    acts != [] && forall k | 0 <= k < |acts| :: acts[k] == if k == 0 then Begin(t, req) else Step(t, false)
  }

  /** The only open transaction is t. */
  ghost predicate OnlyOpen(txs: map<Tid, Tx>, t: Tid) {
    t in txs && txs == map[t := txs[t]]
  }

  lemma StepsOn(w: World, t: Tid)
    requires OnlyOpen(w.txs, t) && TxOk(w.db, w.txs[t])
    ensures Enabled(w, Step(t, false))
    ensures var txs := Next(w, Step(t, false)).txs;
            txs == map[] || (OnlyOpen(txs, t) && Remaining(txs[t]) < Remaining(w.txs[t]))
  {
    var tx := w.txs[t];
    if tx.phase.Ending? {
      assert w.txs - {t} == map[];
    } else {
      var hit := Lookup(w, tx.req, false);
      AdvanceDecreases(w.db, hit, tx);
      assert w.txs[t := Advance(w.db, hit, tx)] == map[t := Advance(w.db, hit, tx)];
    }
  }

  lemma {:induction false} GoesOn(w: World, t: Tid, req: Request, acts: seq<Action>) returns (all: seq<Action>)
    requires Inv(w) && Runnable(w, acts) && Plain(acts, t, req) && OnlyOpen(Exec(w, acts).txs, t)
    ensures Runnable(w, all) && Exec(w, all).txs == map[] && Plain(all, t, req)
    decreases Remaining(Exec(w, acts).txs[t])
  {
    var w' := Exec(w, acts);
    ExecKeepsInv(w, acts);
    assert TxOk(w'.db, w'.txs[t]);
    StepsOn(w', t);
    ExecAppend(w, acts, Step(t, false));
    all := acts + [Step(t, false)];
    if Exec(w, all).txs != map[] {
      all := GoesOn(w, t, req, all);
    }
  }

  // ---- Orders ----

  lemma PlaceOrderAlone(w: World, t: Tid, id: OrderId, i: ItemId, quantity: int, acts: seq<Action>)
    requires Uninterrupted(w, t, PlaceOrder(id, i, quantity), acts)
    ensures var w', db, req := Exec(w, acts), w.db, PlaceOrder(id, i, quantity);
            if i !in db.items then Leaves(w, w', acts, req, NotFound, None, db, w.cache)
            else
              Leaves(w, w', acts, req, Success, None,
                     Db(db.items, db.orders[id := Order(i, quantity, Pending, 1)], db.ledger), w.cache)
  {
    ServedLeaves(w, t, PlaceOrder(id, i, quantity), acts);
    assert Apply(w.db, NOTHING) == w.db;
  }

  /** Tables and cache after a confirm that has taken the quantity of order o. */
  function Taken(on: bool, shop: Shop, id: OrderId, o: Order): Shop
    requires o.item in shop.db.items
  {
    var row := shop.db.items[o.item];
    var stock := row.stock - o.quantity;
    Shop(Db(shop.db.items[o.item := Item(stock, row.version + 1, row.threshold, row.price)],
            shop.db.orders[id := Order(o.item, o.quantity, Confirmed, 2)],
            shop.db.ledger + [Movement(o.item, Some(id), Deduction, -o.quantity, row.stock, stock)]),
         if on then shop.cache[o.item := stock] else shop.cache)
  }

  /** Tables after a confirm that has rejected order o. */
  function RejectedIn(policy: Policy, db: Db, id: OrderId, o: Order): Db {
    if InsufficientStock in policy.mapped
    then Db(db.items, db.orders[id := Order(o.item, o.quantity, Rejected, 2)], db.ledger)
    else db
  }

  lemma ConfirmServes(policy: Policy, on: bool, shop: Shop, id: OrderId)
    requires DbOk(shop.db)
    ensures var db, served := shop.db, Serve(policy, on, shop, Confirm(id), false);
            if id !in db.orders then served == Served(shop, Reply(NotFound, None))
            else
              var o := db.orders[id];
              if o.status != Pending then served == Served(shop, Reply(InvalidTransition, None))
              else
                && o.item in db.items
                && if db.items[o.item].stock < o.quantity then
                     served == Served(Shop(RejectedIn(policy, db, id, o), shop.cache), Reply(InsufficientStock, None))
                   else served == Served(Taken(on, shop, id, o), Reply(Success, None))
  {
    assert Apply(shop.db, NOTHING) == shop.db;
  }

  /** A confirm: an unknown order is NotFound, a settled one InvalidTransition; too small a stock
      rejects the order, for good if the policy commits that; otherwise the stock is taken. */
  lemma ConfirmAlone(w: World, t: Tid, id: OrderId, acts: seq<Action>)
    requires Uninterrupted(w, t, Confirm(id), acts)
    ensures var w', db := Exec(w, acts), w.db;
            if id !in db.orders then Leaves(w, w', acts, Confirm(id), NotFound, None, db, w.cache)
            else
              var o := db.orders[id];
              if o.status != Pending then Leaves(w, w', acts, Confirm(id), InvalidTransition, None, db, w.cache)
              else
                && o.item in db.items
                && if db.items[o.item].stock < o.quantity then
                     Leaves(w, w', acts, Confirm(id), InsufficientStock, None, RejectedIn(w.policy, db, id, o), w.cache)
                   else
                     var shop := Taken(w.cacheOn, Shop(db, w.cache), id, o);
                     Leaves(w, w', acts, Confirm(id), Success, None, shop.db, shop.cache)
  {
    ServedLeaves(w, t, Confirm(id), acts);
    ConfirmServes(w.policy, w.cacheOn, Shop(w.db, w.cache), id);
  }

  /** Under the order router the rejection is committed. */
  lemma RouterRejects(w: World, t: Tid, id: OrderId, acts: seq<Action>)
    requires Uninterrupted(w, t, Confirm(id), acts) && w.policy == ROUTER_POLICY
    requires id in w.db.orders && w.db.orders[id].status == Pending && w.db.orders[id].item in w.db.items
    requires w.db.items[w.db.orders[id].item].stock < w.db.orders[id].quantity
    ensures var w', o := Exec(w, acts), w.db.orders[id];
            && w'.db.orders == w.db.orders[id := Order(o.item, o.quantity, Rejected, 2)]
            && w'.db.items == w.db.items && w'.db.ledger == w.db.ledger
            && |w'.ended| == |w.ended| + 1 && w'.ended[|w.ended|].outcome == InsufficientStock
  {
    ConfirmAlone(w, t, id, acts);
  }

  lemma ShipServes(policy: Policy, on: bool, shop: Shop, id: OrderId)
    requires DbOk(shop.db)
    ensures var db, served := shop.db, Serve(policy, on, shop, Ship(id), false);
            if id !in db.orders then served == Served(shop, Reply(NotFound, None))
            else if db.orders[id].status != Confirmed then served == Served(shop, Reply(InvalidTransition, None))
            else
              var o := db.orders[id];
              served == Served(Shop(Db(db.items, db.orders[id := Order(o.item, o.quantity, Shipped, 3)], db.ledger),
                                    shop.cache), Reply(Success, None))
  {
    assert Apply(shop.db, NOTHING) == shop.db;
  }

  /** Shipping succeeds exactly from CONFIRMED. */
  lemma ShipAlone(w: World, t: Tid, id: OrderId, acts: seq<Action>)
    requires Uninterrupted(w, t, Ship(id), acts)
    ensures var w', db := Exec(w, acts), w.db;
            if id !in db.orders then Leaves(w, w', acts, Ship(id), NotFound, None, db, w.cache)
            else if db.orders[id].status != Confirmed then
              Leaves(w, w', acts, Ship(id), InvalidTransition, None, db, w.cache)
            else
              var o := db.orders[id];
              Leaves(w, w', acts, Ship(id), Success, None,
                     Db(db.items, db.orders[id := Order(o.item, o.quantity, Shipped, 3)], db.ledger), w.cache)
  {
    ServedLeaves(w, t, Ship(id), acts);
    ShipServes(w.policy, w.cacheOn, Shop(w.db, w.cache), id);
  }

  lemma DeliverServes(policy: Policy, on: bool, shop: Shop, id: OrderId)
    requires DbOk(shop.db)
    ensures var db, served := shop.db, Serve(policy, on, shop, Deliver(id), false);
            if id !in db.orders then served == Served(shop, Reply(NotFound, None))
            else if db.orders[id].status != Shipped then served == Served(shop, Reply(InvalidTransition, None))
            else
              var o := db.orders[id];
              served == Served(Shop(Db(db.items, db.orders[id := Order(o.item, o.quantity, Delivered, 4)], db.ledger),
                                    shop.cache), Reply(Success, None))
  {
    assert Apply(shop.db, NOTHING) == shop.db;
  }

  /** Delivering succeeds exactly from SHIPPED. */
  lemma DeliverAlone(w: World, t: Tid, id: OrderId, acts: seq<Action>)
    requires Uninterrupted(w, t, Deliver(id), acts)
    ensures var w', db := Exec(w, acts), w.db;
            if id !in db.orders then Leaves(w, w', acts, Deliver(id), NotFound, None, db, w.cache)
            else if db.orders[id].status != Shipped then
              Leaves(w, w', acts, Deliver(id), InvalidTransition, None, db, w.cache)
            else
              var o := db.orders[id];
              Leaves(w, w', acts, Deliver(id), Success, None,
                     Db(db.items, db.orders[id := Order(o.item, o.quantity, Delivered, 4)], db.ledger), w.cache)
  {
    ServedLeaves(w, t, Deliver(id), acts);
    DeliverServes(w.policy, w.cacheOn, Shop(w.db, w.cache), id);
  }

  /** Tables and cache after a cancel that has put the quantity of order o back. */
  function Restored(on: bool, shop: Shop, id: OrderId, o: Order, version: nat): Shop
    requires o.item in shop.db.items
  {
    var row := shop.db.items[o.item];
    var stock := row.stock + o.quantity;
    Shop(Db(shop.db.items[o.item := Item(stock, row.version + 1, row.threshold, row.price)],
            shop.db.orders[id := Order(o.item, o.quantity, Cancelled, version)],
            shop.db.ledger + [Movement(o.item, Some(id), Restoration, o.quantity, row.stock, stock)]),
         if on then shop.cache[o.item := stock] else shop.cache)
  }

  ghost predicate Restores(w: World, w': World, acts: seq<Action>, id: OrderId, o: Order, version: nat) {
    && o.item in w.db.items
    && var shop := Restored(w.cacheOn, Shop(w.db, w.cache), id, o, version);
       Leaves(w, w', acts, Cancel(id), Success, None, shop.db, shop.cache)
  }

  lemma CancelServes(policy: Policy, on: bool, shop: Shop, id: OrderId, o: Order, version: nat)
    requires DbOk(shop.db) && id in shop.db.orders && shop.db.orders[id] == o
    requires (o.status == Confirmed && version == 3) || (o.status == Shipped && version == 4)
    ensures o.item in shop.db.items
    ensures Serve(policy, on, shop, Cancel(id), false) ==
            Served(Restored(on, shop, id, o, version), Reply(Success, None))
  {
  }

  lemma RestoresAsServed(w: World, w': World, acts: seq<Action>, served: Served, id: OrderId, o: Order, version: nat)
    requires Leaves(w, w', acts, Cancel(id), served.reply.outcome, None, served.shop.db, served.shop.cache)
    requires o.item in w.db.items
    requires served == Served(Restored(w.cacheOn, Shop(w.db, w.cache), id, o, version), Reply(Success, None))
    ensures Restores(w, w', acts, id, o, version)
  {
  }

  lemma CancelRestores(w: World, t: Tid, id: OrderId, acts: seq<Action>, o: Order, version: nat)
    requires Uninterrupted(w, t, Cancel(id), acts) && id in w.db.orders && w.db.orders[id] == o
    requires (o.status == Confirmed && version == 3) || (o.status == Shipped && version == 4)
    ensures Restores(w, Exec(w, acts), acts, id, o, version)
  {
    var shop := Shop(w.db, w.cache);
    ServedLeaves(w, t, Cancel(id), acts);
    CancelServes(w.policy, w.cacheOn, shop, id, o, version);
    RestoresAsServed(w, Exec(w, acts), acts, Serve(w.policy, w.cacheOn, shop, Cancel(id), false), id, o, version);
  }

  lemma CancelServesNothing(policy: Policy, on: bool, shop: Shop, id: OrderId)
    requires DbOk(shop.db)
    requires id in shop.db.orders ==> shop.db.orders[id].status != Confirmed && shop.db.orders[id].status != Shipped
    ensures var db, served := shop.db, Serve(policy, on, shop, Cancel(id), false);
            if id !in db.orders then served == Served(shop, Reply(NotFound, None))
            else if db.orders[id].status != Pending then served == Served(shop, Reply(InvalidTransition, None))
            else
              var o := db.orders[id];
              served == Served(Shop(Db(db.items, db.orders[id := Order(o.item, o.quantity, Cancelled, 2)], db.ledger),
                                    shop.cache), Reply(Success, None))
  {
    assert Apply(shop.db, NOTHING) == shop.db;
  }

  lemma CancelRestoresNothing(w: World, t: Tid, id: OrderId, acts: seq<Action>)
    requires Uninterrupted(w, t, Cancel(id), acts)
    requires id in w.db.orders ==> w.db.orders[id].status != Confirmed && w.db.orders[id].status != Shipped
    ensures var w', db := Exec(w, acts), w.db;
            if id !in db.orders then Leaves(w, w', acts, Cancel(id), NotFound, None, db, w.cache)
            else if db.orders[id].status != Pending then
              Leaves(w, w', acts, Cancel(id), InvalidTransition, None, db, w.cache)
            else
              var o := db.orders[id];
              Leaves(w, w', acts, Cancel(id), Success, None,
                     Db(db.items, db.orders[id := Order(o.item, o.quantity, Cancelled, 2)], db.ledger), w.cache)
  {
    ServedLeaves(w, t, Cancel(id), acts);
    CancelServesNothing(w.policy, w.cacheOn, Shop(w.db, w.cache), id);
  }

  /** A cancel succeeds exactly from PENDING, CONFIRMED and SHIPPED, and restores the stock that the
      last two hold. */
  lemma CancelAlone(w: World, t: Tid, id: OrderId, acts: seq<Action>)
    requires Uninterrupted(w, t, Cancel(id), acts)
    ensures var w', db := Exec(w, acts), w.db;
            if id !in db.orders then Leaves(w, w', acts, Cancel(id), NotFound, None, db, w.cache)
            else
              var o := db.orders[id];
              if o.status == Pending then
                Leaves(w, w', acts, Cancel(id), Success, None,
                       Db(db.items, db.orders[id := Order(o.item, o.quantity, Cancelled, 2)], db.ledger), w.cache)
              else if o.status == Confirmed then Restores(w, w', acts, id, o, 3)
              else if o.status == Shipped then Restores(w, w', acts, id, o, 4)
              else Leaves(w, w', acts, Cancel(id), InvalidTransition, None, db, w.cache)
  {
    if id in w.db.orders && w.db.orders[id].status == Confirmed {
      CancelRestores(w, t, id, acts, w.db.orders[id], 3);
    } else if id in w.db.orders && w.db.orders[id].status == Shipped {
      CancelRestores(w, t, id, acts, w.db.orders[id], 4);
    } else {
      CancelRestoresNothing(w, t, id, acts);
    }
  }

  // ---- Items ----

  lemma CreateItemAlone(w: World, t: Tid, id: ItemId, stock: int, threshold: int, price: int, acts: seq<Action>)
    requires Uninterrupted(w, t, CreateItem(id, stock, threshold, price), acts)
    ensures Leaves(w, Exec(w, acts), acts, CreateItem(id, stock, threshold, price), Success, None,
                   Db(w.db.items[id := Item(stock, 1, threshold, price)], w.db.orders,
                      w.db.ledger + [Movement(id, None, Adjustment, stock, 0, stock)]),
                   Cached(w, id, stock))
  {
    ServedLeaves(w, t, CreateItem(id, stock, threshold, price), acts);
  }

  lemma AdjustStockAlone(w: World, t: Tid, i: ItemId, delta: int, acts: seq<Action>)
    requires Uninterrupted(w, t, AdjustStock(i, delta), acts)
    ensures var w', db, req := Exec(w, acts), w.db, AdjustStock(i, delta);
            if i !in db.items then Leaves(w, w', acts, req, NotFound, None, db, w.cache)
            else
              var row := db.items[i]; var stock := row.stock + delta;
              if stock < 0 then Leaves(w, w', acts, req, InsufficientStock, None, db, w.cache)
              else
                Leaves(w, w', acts, req, Success, None,
                       Db(db.items[i := Item(stock, row.version + 1, row.threshold, row.price)], db.orders,
                          db.ledger + [Movement(i, None, Adjustment, delta, row.stock, stock)]),
                       Cached(w, i, stock))
  {
    ServedLeaves(w, t, AdjustStock(i, delta), acts);
    assert Apply(w.db, NOTHING) == w.db;
  }

  /** A stock read reports the cached quantity, if there is one and neither a cache call fails nor the
      entry expires, and the committed stock if there is none; what it reports becomes the committed
      stock. */
  lemma GetStockAlone(w: World, t: Tid, i: ItemId, acts: seq<Action>)
    requires Uninterrupted(w, t, GetStock(i), acts)
    ensures var w', db := Exec(w, acts), w.db;
            if i !in db.items then Leaves(w, w', acts, GetStock(i), NotFound, None, db, w.cache)
            else
              var row := db.items[i];
              exists quantity: int ::
                && Leaves(w, w', acts, GetStock(i), Success, Some(quantity),
                          Db(db.items[i := Item(quantity, row.version, row.threshold, row.price)],
                             db.orders, db.ledger), w.cache)
                && if w.cacheOn && i in w.cache then
                     && quantity in {row.stock, w.cache[i]}
                     && (!Glitched(acts) && NoExpiry(acts) ==> quantity == w.cache[i])
                   else quantity == row.stock
  {
    ReachableInv(w);
    var g := SoloServes(w, t, GetStock(i), acts);
    if i in w.db.items {
      var served := Serve(w.policy, w.cacheOn, Shop(w.db, w.cache), GetStock(i), g);
      var quantity := served.reply.quantity.value;
      var row := w.db.items[i];
      assert row.(stock := quantity) == Item(quantity, row.version, row.threshold, row.price);
      assert Leaves(w, Exec(w, acts), acts, GetStock(i), Success, Some(quantity),
                    Db(w.db.items[i := Item(quantity, row.version, row.threshold, row.price)],
                       w.db.orders, w.db.ledger), w.cache);
    }
  }
}
