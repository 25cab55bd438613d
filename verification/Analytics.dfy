/** The analytics aggregates over a window that covers all rows, and how they reconcile with each
    other in every reachable state. Money is in cents. */
module Analytics {
  import opened Domain
  import opened Sums
  import opened Spec
  import opened Machine
  import opened Safety
  import opened Serializability
  import opened Ledger

  // ---- The aggregates ----

  datatype StockAnalytics = StockAnalytics(totalItems: int, totalUnits: int, totalValue: int,
                                           lowStockCount: int, outOfStockCount: int)

  datatype OrderAnalytics = OrderAnalytics(total: int, pending: int, confirmed: int, shipped: int, delivered: int,
                                           cancelled: int, rejected: int, revenue: int, refundValue: int)

  datatype MovementAnalytics = MovementAnalytics(deductions: int, restorations: int, adjustments: int, netChange: int)

  /** COUNT(id) FILTER (WHERE p) over a table. */
  function CountIf<T>(p: T -> bool): T -> int {
    (row: T) => if p(row) then 1 else 0
  }

  function Units(): Item -> int { (i: Item) => i.stock }
  function Value(): Item -> int { (i: Item) => i.price * i.stock }
  function IsLow(): Item -> bool { (i: Item) => i.stock <= i.threshold && i.stock > 0 }
  function IsOut(): Item -> bool { (i: Item) => i.stock == 0 }

  ghost function GetStockAnalytics(db: Db): StockAnalytics {
    StockAnalytics(|db.items|, SumRows(db.items, Units()), SumRows(db.items, Value()),
                   SumRows(db.items, CountIf(IsLow())), SumRows(db.items, CountIf(IsOut())))
  }

  function Prices(items: map<ItemId, Item>): map<ItemId, int> {
    map i | i in items :: items[i].price
  }

  function PriceOf(prices: map<ItemId, int>, i: ItemId): int {
    if i in prices then prices[i] else 0
  }

  function HasStatus(s: Status): Order -> bool {
    (o: Order) => o.status == s
  }

  ghost function StatusCount(orders: map<OrderId, Order>, s: Status): int {
    SumRows(orders, CountIf(HasStatus(s)))
  }

  /** SUM(price * quantity) over the orders with a status, joined with their items. */
  function WorthWithStatus(prices: map<ItemId, int>, s: Status): Order -> int {
    (o: Order) => if o.status == s then PriceOf(prices, o.item) * o.quantity else 0
  }

  ghost function GetOrderAnalytics(db: Db): OrderAnalytics {
    OrderAnalytics(|db.orders|,
                   StatusCount(db.orders, Pending), StatusCount(db.orders, Confirmed),
                   StatusCount(db.orders, Shipped), StatusCount(db.orders, Delivered),
                   StatusCount(db.orders, Cancelled), StatusCount(db.orders, Rejected),
                   SumRows(db.orders, WorthWithStatus(Prices(db.items), Delivered)),
                   SumRows(db.orders, WorthWithStatus(Prices(db.items), Cancelled)))
  }

  function OfKind(k: MovementType): Movement -> bool {
    (m: Movement) => m.kind == k
  }

  function DeltaOf(): Movement -> int { (m: Movement) => m.delta }

  function GetMovementAnalytics(db: Db): MovementAnalytics {
    MovementAnalytics(SumLog(db.ledger, CountIf(OfKind(Deduction))), SumLog(db.ledger, CountIf(OfKind(Restoration))),
                      SumLog(db.ledger, CountIf(OfKind(Adjustment))), SumLog(db.ledger, DeltaOf()))
  }

  // ---- Counts ----

  function Passing<K(!new), V>(m: map<K, V>, p: V -> bool): set<K> {
    set k | k in m && p(m[k])
  }

  lemma CountOfNone<K(!new), V>(m: map<K, V>, p: V -> bool)
    requires m == map[]
    ensures SumRows(m, CountIf(p)) == |Passing(m, p)|
  {
    assert Passing(m, p) == {};
  }

  lemma PassingRemove<K(!new), V>(m: map<K, V>, p: V -> bool, k: K)
    requires k in m
    ensures |Passing(m, p)| == |Passing(m - {k}, p)| + CountIf(p)(m[k])
  {
    if p(m[k]) {
      assert Passing(m, p) == Passing(m - {k}, p) + {k};
    } else {
      assert Passing(m, p) == Passing(m - {k}, p);
    }
  }

  /** A filtered count is the number of rows that pass the filter. */
  lemma {:induction false} CountIsSize<K(!new), V>(m: map<K, V>, p: V -> bool)
    ensures SumRows(m, CountIf(p)) == |Passing(m, p)|
    decreases |m|
  {
    if m == map[] {
      CountOfNone(m, p);
    } else {
      var k :| k in m;
      SumRemove(m, CountIf(p), k);
      CountIsSize(m - {k}, p);
      PassingRemove(m, p, k);
    }
  }

  function StatusIn(ss: set<Status>): Order -> bool {
    (o: Order) => o.status in ss
  }

  ghost function CountIn(orders: map<OrderId, Order>, ss: set<Status>): int {
    SumRows(orders, CountIf(StatusIn(ss)))
  }

  lemma CountInSplits(orders: map<OrderId, Order>, rest: set<Status>, s: Status)
    requires s !in rest
    ensures CountIn(orders, rest + {s}) == CountIn(orders, rest) + StatusCount(orders, s)
  {
    SumSplit(orders, CountIf(StatusIn(rest + {s})), CountIf(StatusIn(rest)), CountIf(HasStatus(s)));
  }

  lemma CountInAll(orders: map<OrderId, Order>, ss: set<Status>)
    requires forall k | k in orders :: orders[k].status in ss
    ensures CountIn(orders, ss) == |orders|
  {
    CountIsSize(orders, StatusIn(ss));
    assert Passing(orders, StatusIn(ss)) == orders.Keys;
  }

  lemma CountInNone(orders: map<OrderId, Order>)
    ensures CountIn(orders, {}) == 0
  {
    CountIsSize(orders, StatusIn({}));
    assert Passing(orders, StatusIn({})) == {};
  }

  const ALL_STATES: set<Status> := {} + {Pending} + {Confirmed} + {Shipped} + {Delivered} + {Cancelled} + {Rejected}

  lemma AllStates(s: Status)
    ensures s in ALL_STATES
  {
    match s
    case Pending | Confirmed | Shipped | Delivered | Cancelled | Rejected =>
  }

  /** The six status counts sum to the total. */
  lemma StatusCountsSum(orders: map<OrderId, Order>)
    ensures StatusCount(orders, Pending) + StatusCount(orders, Confirmed) + StatusCount(orders, Shipped) +
            StatusCount(orders, Delivered) + StatusCount(orders, Cancelled) + StatusCount(orders, Rejected) == |orders|
  {
    forall k | k in orders ensures orders[k].status in ALL_STATES {
      AllStates(orders[k].status);
    }
    CountInAll(orders, ALL_STATES);
    CountInSplits(orders, {} + {Pending} + {Confirmed} + {Shipped} + {Delivered} + {Cancelled}, Rejected);
    CountInSplits(orders, {} + {Pending} + {Confirmed} + {Shipped} + {Delivered}, Cancelled);
    CountInSplits(orders, {} + {Pending} + {Confirmed} + {Shipped}, Delivered);
    CountInSplits(orders, {} + {Pending} + {Confirmed}, Shipped);
    CountInSplits(orders, {} + {Pending}, Confirmed);
    CountInSplits(orders, {}, Pending);
    CountInNone(orders);
  }

  lemma StatusCountIsSize(orders: map<OrderId, Order>, s: Status)
    ensures StatusCount(orders, s) == |set o | o in orders && orders[o].status == s|
  {
    CountIsSize(orders, HasStatus(s));
    assert Passing(orders, HasStatus(s)) == set o | o in orders && orders[o].status == s;
  }

  /** Each count is the number of orders with its status, and together they are all orders. */
  lemma OrderCountsReconcile(db: Db)
    ensures var a := GetOrderAnalytics(db);
            && a.pending + a.confirmed + a.shipped + a.delivered + a.cancelled + a.rejected == a.total == |db.orders|
            && a.pending == |set o | o in db.orders && db.orders[o].status == Pending|
            && a.confirmed == |set o | o in db.orders && db.orders[o].status == Confirmed|
            && a.shipped == |set o | o in db.orders && db.orders[o].status == Shipped|
            && a.delivered == |set o | o in db.orders && db.orders[o].status == Delivered|
            && a.cancelled == |set o | o in db.orders && db.orders[o].status == Cancelled|
            && a.rejected == |set o | o in db.orders && db.orders[o].status == Rejected|
  {
    StatusCountsSum(db.orders);
    StatusCountIsSize(db.orders, Pending);
    StatusCountIsSize(db.orders, Confirmed);
    StatusCountIsSize(db.orders, Shipped);
    StatusCountIsSize(db.orders, Delivered);
    StatusCountIsSize(db.orders, Cancelled);
    StatusCountIsSize(db.orders, Rejected);
  }

  /** list_low_stock, without its ordering. */
  function ListLowStock(db: Db): set<ItemId> {
    set i | i in db.items && db.items[i].stock <= db.items[i].threshold
  }

  /** The items with little stock left, and the items with none. */
  function LowItems(db: Db): set<ItemId> {
    set i | i in db.items && 0 < db.items[i].stock <= db.items[i].threshold
  }

  function EmptyItems(db: Db): set<ItemId> {
    set i | i in db.items && db.items[i].stock == 0
  }

  /** Each counter counts its own items. */
  lemma StockCountsAreSizes(db: Db)
    ensures GetStockAnalytics(db).totalItems == |db.items|
    ensures GetStockAnalytics(db).lowStockCount == |LowItems(db)|
    ensures GetStockAnalytics(db).outOfStockCount == |EmptyItems(db)|
  {
    CountIsSize(db.items, IsLow());
    CountIsSize(db.items, IsOut());
    assert Passing(db.items, IsLow()) == LowItems(db);
    assert Passing(db.items, IsOut()) == EmptyItems(db);
  }

  lemma AlertsAreLowOrOut(db: Db)
    requires forall i | i in db.items :: ItemOk(db.items[i])
    ensures LowItems(db) !! EmptyItems(db) && ListLowStock(db) == LowItems(db) + EmptyItems(db)
  {
  }

  lemma DisjointSizes<T>(a: set<T>, b: set<T>)
    requires a !! b
    ensures |a + b| == |a| + |b|
  {
  }

  lemma ReachableItemsOk(w: World)
    requires Reachable(w)
    ensures forall i | i in w.db.items :: ItemOk(w.db.items[i])
  {
    ReachableInv(w);
  }

  /** In every reachable state the alerts are the disjoint union of the items counted as low and the
      items counted as out of stock, so their number is the sum of the two counts. */
  lemma LowStockAgreement(w: World)
    requires Reachable(w)
    ensures LowItems(w.db) !! EmptyItems(w.db) && ListLowStock(w.db) == LowItems(w.db) + EmptyItems(w.db)
    ensures var a := GetStockAnalytics(w.db);
            && a.lowStockCount == |LowItems(w.db)| && a.outOfStockCount == |EmptyItems(w.db)|
            && |ListLowStock(w.db)| == a.lowStockCount + a.outOfStockCount
  {
    ReachableItemsOk(w);
    AlertsAreLowOrOut(w.db);
    StockCountsAreSizes(w.db);
    DisjointSizes(LowItems(w.db), EmptyItems(w.db));
  }

  // ---- Row by row ----

  /** The aggregates of empty tables are zero. */
  lemma NothingToReport(db: Db)
    ensures db.items == map[] ==> GetStockAnalytics(db) == StockAnalytics(0, 0, 0, 0, 0)
    ensures db.orders == map[] ==> GetOrderAnalytics(db) == OrderAnalytics(0, 0, 0, 0, 0, 0, 0, 0, 0)
    ensures db.ledger == [] ==> GetMovementAnalytics(db) == MovementAnalytics(0, 0, 0, 0)
  {
  }

  /** What one more item adds to each figure. */
  lemma OneMoreItem(db: Db, i: ItemId, item: Item)
    requires i !in db.items
    ensures var a, b := GetStockAnalytics(db), GetStockAnalytics(db.(items := db.items[i := item]));
            && b.totalItems == a.totalItems + 1
            && b.totalUnits == a.totalUnits + item.stock
            && b.totalValue == a.totalValue + item.price * item.stock
            && b.lowStockCount == a.lowStockCount + (if 0 < item.stock <= item.threshold then 1 else 0)
            && b.outOfStockCount == a.outOfStockCount + (if item.stock == 0 then 1 else 0)
  {
    SumPut(db.items, Units(), i, item);
    SumPut(db.items, Value(), i, item);
    SumPut(db.items, CountIf(IsLow()), i, item);
    SumPut(db.items, CountIf(IsOut()), i, item);
  }

  /** What one more order adds. */
  lemma OneMoreOrder(db: Db, id: OrderId, o: Order)
    requires id !in db.orders && o.item in db.items
    ensures var a, b := GetOrderAnalytics(db), GetOrderAnalytics(db.(orders := db.orders[id := o]));
            var worth := db.items[o.item].price * o.quantity;
            && b.total == a.total + 1
            && b.pending == a.pending + (if o.status == Pending then 1 else 0)
            && b.confirmed == a.confirmed + (if o.status == Confirmed then 1 else 0)
            && b.shipped == a.shipped + (if o.status == Shipped then 1 else 0)
            && b.delivered == a.delivered + (if o.status == Delivered then 1 else 0)
            && b.cancelled == a.cancelled + (if o.status == Cancelled then 1 else 0)
            && b.rejected == a.rejected + (if o.status == Rejected then 1 else 0)
            && b.revenue == a.revenue + (if o.status == Delivered then worth else 0)
            && b.refundValue == a.refundValue + (if o.status == Cancelled then worth else 0)
  {
    SumPut(db.orders, CountIf(HasStatus(Pending)), id, o);
    SumPut(db.orders, CountIf(HasStatus(Confirmed)), id, o);
    SumPut(db.orders, CountIf(HasStatus(Shipped)), id, o);
    SumPut(db.orders, CountIf(HasStatus(Delivered)), id, o);
    SumPut(db.orders, CountIf(HasStatus(Cancelled)), id, o);
    SumPut(db.orders, CountIf(HasStatus(Rejected)), id, o);
    SumPut(db.orders, WorthWithStatus(Prices(db.items), Delivered), id, o);
    SumPut(db.orders, WorthWithStatus(Prices(db.items), Cancelled), id, o);
  }

  /** What one more movement adds. */
  lemma OneMoreMovement(db: Db, m: Movement)
    ensures var a, b := GetMovementAnalytics(db), GetMovementAnalytics(db.(ledger := db.ledger + [m]));
            && b.deductions == a.deductions + (if m.kind == Deduction then 1 else 0)
            && b.restorations == a.restorations + (if m.kind == Restoration then 1 else 0)
            && b.adjustments == a.adjustments + (if m.kind == Adjustment then 1 else 0)
            && b.netChange == a.netChange + m.delta
  {
    SumAppend(db.ledger, CountIf(OfKind(Deduction)), m);
    SumAppend(db.ledger, CountIf(OfKind(Restoration)), m);
    SumAppend(db.ledger, CountIf(OfKind(Adjustment)), m);
    SumAppend(db.ledger, DeltaOf(), m);
  }

  // ---- Units and movements ----

  function DriftOf(): Ended -> int { (e: Ended) => e.drift }

  ghost predicate UnitsReconcile(w: World) {
    SumRows(w.db.items, Units()) == SumLog(w.db.ledger, DeltaOf()) + SumLog(w.ended, DriftOf())
  }

  /** What a committed request does to the units of its item is its movement, or its write-back. */
  lemma CommitUnits(db: Db, tx: Tx)
    requires DbOk(db) && TxOk(db, tx) && tx.phase.Ending?
    ensures (if tx.writes.item.Some? then
               tx.writes.item.value.row.stock -
               (if tx.writes.item.value.key in db.items then db.items[tx.writes.item.value.key].stock else 0) else 0)
            == (if tx.writes.movement.Some? then tx.writes.movement.value.delta else 0) + Drift(db, tx)
  {
    match tx.req
    case Confirm(_) =>
    case Cancel(_) =>
    case _ =>
  }

  lemma FinishUnits(w: World, t: Tid)
    requires DbOk(w.db) && t in w.txs && TxOk(w.db, w.txs[t]) && w.txs[t].phase.Ending? && UnitsReconcile(w)
    ensures UnitsReconcile(Finish(w, t))
  {
    var tx, w' := w.txs[t], Finish(w, t);
    SumAppend(w.ended, DriftOf(), w'.ended[|w.ended|]);
    CommitUnits(w.db, tx);
    if w.policy.Commits(tx.phase.outcome) {
      if tx.writes.item.Some? {
        SumPut(w.db.items, Units(), tx.writes.item.value.key, tx.writes.item.value.row);
      }
      if tx.writes.movement.Some? {
        SumAppend(w.db.ledger, DeltaOf(), tx.writes.movement.value);
      }
    }
  }

  /** Every movement is counted as exactly one of the three kinds. */
  lemma {:induction false} KindCountsSum(ledger: seq<Movement>)
    ensures SumLog(ledger, CountIf(OfKind(Deduction))) + SumLog(ledger, CountIf(OfKind(Restoration))) +
            SumLog(ledger, CountIf(OfKind(Adjustment))) == |ledger|
    decreases |ledger|
  {
    if ledger != [] {
      KindCountsSum(ledger[..|ledger| - 1]);
    }
  }

  lemma MovementCountsReconcile(db: Db)
    ensures var a := GetMovementAnalytics(db); a.deductions + a.restorations + a.adjustments == |db.ledger|
  {
    KindCountsSum(db.ledger);
  }

  // ---- Deductions, restorations and the orders that hold stock ----

  /** Committed deductions minus restorations of requests that ended in ConflictError. */
  function StrayCount(): Ended -> int {
    (e: Ended) =>
      if e.committed && e.outcome == Conflict && e.writes.movement.Some? then
        if e.writes.movement.value.kind == Deduction then 1 else -1
      else 0
  }

  function Holds(): Order -> bool { (o: Order) => o.status in STOCK_HOLDING_STATES }

  function Balance(): Movement -> int {
    (m: Movement) => if m.kind == Deduction then 1 else if m.kind == Restoration then -1 else 0
  }

  ghost predicate HoldersReconcile(w: World) {
    SumLog(w.db.ledger, Balance()) == SumRows(w.db.orders, CountIf(Holds())) + SumLog(w.ended, StrayCount())
  }

  function StrayTerm(tx: Tx, f: Movement -> int): int {
    if tx.phase == Ending(Conflict) && tx.writes.movement.Some? then f(tx.writes.movement.value) else 0
  }

  predicate HoldersChange(db: Db, tx: Tx) {
    && MovementTerm(tx.writes, Balance()) == OrderChange(db, tx.writes, CountIf(Holds())) + StrayTerm(tx, Balance())
    && (tx.phase == Ending(Conflict) && tx.writes.movement.Some? ==> tx.writes.movement.value.kind != Adjustment)
  }

  lemma CommitHolders(db: Db, tx: Tx)
    requires DbOk(db) && TxOk(db, tx) && tx.phase.Ending?
    ensures HoldersChange(db, tx)
  {
    if tx.req.OnOrder() && tx.phase.outcome in {Success, InsufficientStock} {
      TransitionHolds(db, tx);
    }
    match tx.req
    case Confirm(_) =>
    case Cancel(_) =>
    case _ =>
  }

  lemma TransitionHolds(db: Db, tx: Tx)
    requires DbOk(db) && TxOk(db, tx) && tx.req.OnOrder()
    requires tx.phase.Ending? && tx.phase.outcome in {Success, InsufficientStock}
    ensures MovementTerm(tx.writes, Balance()) ==
            OrderChange(db, tx.writes, CountIf(Holds()))
  {
    var o := db.orders[tx.req.order];
    match tx.req
    case Confirm(_) =>
      assert o.status == Pending;
    case Cancel(_) =>
    case Ship(_) =>
      assert o.status == Confirmed;
    case Deliver(_) =>
      assert o.status == Shipped;
  }

  lemma HoldersGoOn(w: World, t: Tid)
    requires t in w.txs && w.txs[t].phase.Ending? && HoldersReconcile(w)
    requires w.policy.Commits(w.txs[t].phase.outcome) ==> HoldersChange(w.db, w.txs[t])
    ensures HoldersReconcile(Finish(w, t))
  {
    var tx, w' := w.txs[t], Finish(w, t);
    SumAppend(w.ended, StrayCount(), w'.ended[|w.ended|]);
    if w.policy.Commits(tx.phase.outcome) {
      CommitSums(w.db, tx.writes, CountIf(Holds()), Balance());
    }
  }

  lemma FinishHolders(w: World, t: Tid)
    requires DbOk(w.db) && t in w.txs && TxOk(w.db, w.txs[t]) && w.txs[t].phase.Ending? && HoldersReconcile(w)
    ensures HoldersReconcile(Finish(w, t))
  {
    CommitHolders(w.db, w.txs[t]);
    HoldersGoOn(w, t);
  }

  lemma {:induction false} BalanceSplits(ledger: seq<Movement>)
    ensures SumLog(ledger, Balance()) ==
            SumLog(ledger, CountIf(OfKind(Deduction))) - SumLog(ledger, CountIf(OfKind(Restoration)))
    decreases |ledger|
  {
    if ledger != [] {
      BalanceSplits(ledger[..|ledger| - 1]);
    }
  }

  lemma HoldersSplit(orders: map<OrderId, Order>)
    ensures SumRows(orders, CountIf(Holds())) ==
            StatusCount(orders, Confirmed) + StatusCount(orders, Shipped) + StatusCount(orders, Delivered)
  {
    var leaving := (o: Order) => if o.status == Shipped || o.status == Delivered then 1 else 0;
    SumSplit(orders, CountIf(Holds()), CountIf(HasStatus(Confirmed)), leaving);
    SumSplit(orders, leaving, CountIf(HasStatus(Shipped)), CountIf(HasStatus(Delivered)));
  }

  // ---- Refunds ----

  /** The value of a restoration at the price of its item. */
  function RestoredWorth(prices: map<ItemId, int>): Movement -> int {
    (m: Movement) => if m.kind == Restoration then PriceOf(prices, m.item) * m.delta else 0
  }

  /** Cancelled straight from PENDING: the version says so. */
  predicate CancelledFromPending(o: Order) {
    o.status == Cancelled && o.version == 2
  }

  /** The value of an order cancelled straight from PENDING, which never had stock. */
  function NeverDeductedWorth(prices: map<ItemId, int>): Order -> int {
    (o: Order) => if CancelledFromPending(o) then PriceOf(prices, o.item) * o.quantity else 0
  }

  /** The value of a restoration committed by a request that ended in ConflictError. */
  function StrayWorth(prices: map<ItemId, int>): Ended -> int {
    (e: Ended) => if e.committed && e.outcome == Conflict && e.writes.movement.Some?
                  then RestoredWorth(prices)(e.writes.movement.value) else 0
  }

  ghost predicate RefundsReconcile(w: World, prices: map<ItemId, int>) {
    SumRows(w.db.orders, WorthWithStatus(prices, Cancelled)) + SumLog(w.ended, StrayWorth(prices)) ==
    SumLog(w.db.ledger, RestoredWorth(prices)) + SumRows(w.db.orders, NeverDeductedWorth(prices))
  }

  /** Movements refer to items. */
  ghost predicate References(w: World) {
    && (forall m | m in w.db.ledger :: m.item in w.db.items)
    && (forall e | e in w.ended && e.committed && e.writes.movement.Some? :: e.writes.movement.value.item in w.db.items)
  }

  lemma {:induction false} LogAgree<T>(s: seq<T>, f: T -> int, g: T -> int)
    requires forall x | x in s :: f(x) == g(x)
    ensures SumLog(s, f) == SumLog(s, g)
    decreases |s|
  {
    if s != [] {
      LogAgree(s[..|s| - 1], f, g);
      assert s[|s| - 1] in s;
    }
  }

  /** A new item has a price, but nothing refers to it yet. */
  lemma NewPriceKeepsRefunds(w: World, prices: map<ItemId, int>)
    requires DbOk(w.db) && References(w) && RefundsReconcile(w, Prices(w.db.items))
    requires forall i | i in w.db.items :: i in prices && prices[i] == w.db.items[i].price
    ensures RefundsReconcile(w, prices)
  {
    var before := Prices(w.db.items);
    SumAgree(w.db.orders, WorthWithStatus(before, Cancelled), WorthWithStatus(prices, Cancelled));
    SumAgree(w.db.orders, NeverDeductedWorth(before), NeverDeductedWorth(prices));
    LogAgree(w.db.ledger, RestoredWorth(before), RestoredWorth(prices));
    LogAgree(w.ended, StrayWorth(before), StrayWorth(prices));
  }

  predicate Refunds(db: Db, tx: Tx, prices: map<ItemId, int>) {
    OrderChange(db, tx.writes, WorthWithStatus(prices, Cancelled)) + StrayTerm(tx, RestoredWorth(prices)) ==
    MovementTerm(tx.writes, RestoredWorth(prices)) +
    OrderChange(db, tx.writes, NeverDeductedWorth(prices))
  }

  lemma ConfirmRefunds(db: Db, tx: Tx, prices: map<ItemId, int>)
    requires DbOk(db) && TxOk(db, tx) && tx.phase.Ending? && tx.req.Confirm?
    ensures Refunds(db, tx, prices)
  {
  }

  lemma CancelRefunds(db: Db, tx: Tx, prices: map<ItemId, int>)
    requires DbOk(db) && TxOk(db, tx) && tx.phase.Ending? && tx.req.Cancel?
    ensures Refunds(db, tx, prices)
  {
  }

  lemma CommitRefunds(db: Db, tx: Tx, prices: map<ItemId, int>)
    requires DbOk(db) && TxOk(db, tx) && tx.phase.Ending?
    ensures Refunds(db, tx, prices)
  {
    match tx.req
    case Confirm(_) => ConfirmRefunds(db, tx, prices);
    case Cancel(_) => CancelRefunds(db, tx, prices);
    case _ =>
  }

  lemma CommitPrices(db: Db, tx: Tx)
    requires DbOk(db) && TxOk(db, tx) && tx.phase.Ending?
    ensures forall i | i in db.items ::
              i in Apply(db, tx.writes).items && Apply(db, tx.writes).items[i].price == db.items[i].price
    ensures tx.writes.movement.Some? ==> tx.writes.movement.value.item in Apply(db, tx.writes).items
  {
  }

  lemma FinishReferences(w: World, t: Tid)
    requires DbOk(w.db) && t in w.txs && TxOk(w.db, w.txs[t]) && w.txs[t].phase.Ending? && References(w)
    ensures References(Finish(w, t))
  {
    CommitPrices(w.db, w.txs[t]);
  }

  lemma RefundsGoOn(w: World, t: Tid, prices: map<ItemId, int>)
    requires t in w.txs && w.txs[t].phase.Ending? && RefundsReconcile(w, prices)
    requires w.policy.Commits(w.txs[t].phase.outcome) ==> Refunds(w.db, w.txs[t], prices)
    ensures RefundsReconcile(Finish(w, t), prices)
  {
    var tx, w' := w.txs[t], Finish(w, t);
    SumAppend(w.ended, StrayWorth(prices), w'.ended[|w.ended|]);
    if w.policy.Commits(tx.phase.outcome) {
      CommitSums(w.db, tx.writes, WorthWithStatus(prices, Cancelled), RestoredWorth(prices));
      CommitSums(w.db, tx.writes, NeverDeductedWorth(prices), RestoredWorth(prices));
    }
  }

  lemma FinishRefunds(w: World, t: Tid)
    requires DbOk(w.db) && t in w.txs && TxOk(w.db, w.txs[t]) && w.txs[t].phase.Ending?
    requires References(w) && RefundsReconcile(w, Prices(w.db.items))
    ensures RefundsReconcile(Finish(w, t), Prices(Finish(w, t).db.items))
  {
    var prices := Prices(Finish(w, t).db.items);
    CommitPrices(w.db, w.txs[t]);
    NewPriceKeepsRefunds(w, prices);
    CommitRefunds(w.db, w.txs[t], prices);
    RefundsGoOn(w, t, prices);
  }

  // ---- Value and revenue ----

  function Worth(prices: map<ItemId, int>): Movement -> int {
    (m: Movement) => PriceOf(prices, m.item) * m.delta
  }

  function DriftWorth(prices: map<ItemId, int>): Ended -> int {
    (e: Ended) => if e.req.GetStock? then PriceOf(prices, e.req.item) * e.drift else 0
  }

  /** The value of what an order holds. */
  function HeldWorth(prices: map<ItemId, int>): Order -> int {
    (o: Order) => if o.status in STOCK_HOLDING_STATES then PriceOf(prices, o.item) * o.quantity else 0
  }

  /** The value that a movement for an order takes out of stock. */
  function TakenWorth(prices: map<ItemId, int>): Movement -> int {
    (m: Movement) => if m.kind == Adjustment then 0 else PriceOf(prices, m.item) * -m.delta
  }

  function StrayTaken(prices: map<ItemId, int>): Ended -> int {
    (e: Ended) => if e.committed && e.outcome == Conflict && e.writes.movement.Some?
                  then TakenWorth(prices)(e.writes.movement.value) else 0
  }

  ghost predicate ValueReconciles(w: World) {
    var prices := Prices(w.db.items);
    SumRows(w.db.items, Value()) == SumLog(w.db.ledger, Worth(prices)) + SumLog(w.ended, DriftWorth(prices))
  }

  ghost predicate HeldReconciles(w: World, prices: map<ItemId, int>) {
    SumLog(w.db.ledger, TakenWorth(prices)) ==
    SumRows(w.db.orders, HeldWorth(prices)) + SumLog(w.ended, StrayTaken(prices))
  }

  /** Write-backs that moved stock refer to items. */
  ghost predicate DriftReferences(w: World) {
    forall e | e in w.ended && e.req.GetStock? && e.drift != 0 :: e.req.item in w.db.items
  }

  lemma NewPriceKeepsHeld(w: World, prices: map<ItemId, int>)
    requires DbOk(w.db) && References(w) && HeldReconciles(w, Prices(w.db.items))
    requires forall i | i in w.db.items :: i in prices && prices[i] == w.db.items[i].price
    ensures HeldReconciles(w, prices)
  {
    var before := Prices(w.db.items);
    LogAgree(w.db.ledger, TakenWorth(before), TakenWorth(prices));
    LogAgree(w.ended, StrayTaken(before), StrayTaken(prices));
    SumAgree(w.db.orders, HeldWorth(before), HeldWorth(prices));
  }

  lemma NewPriceKeepsValue(w: World, prices: map<ItemId, int>)
    requires References(w) && DriftReferences(w) && ValueReconciles(w)
    requires forall i | i in w.db.items :: i in prices && prices[i] == w.db.items[i].price
    ensures SumRows(w.db.items, Value()) == SumLog(w.db.ledger, Worth(prices)) + SumLog(w.ended, DriftWorth(prices))
  {
    var before := Prices(w.db.items);
    LogAgree(w.db.ledger, Worth(before), Worth(prices));
    forall e | e in w.ended ensures DriftWorth(before)(e) == DriftWorth(prices)(e) {
      if e.req.GetStock? && e.drift != 0 {
        assert e.req.item in before;
      }
    }
    LogAgree(w.ended, DriftWorth(before), DriftWorth(prices));
  }

  /** A commit changes the value of its item by the value of its movement, or of its write-back. */
  lemma CommitValue(db: Db, t: Tid, tx: Tx, prices: map<ItemId, int>)
    requires DbOk(db) && TxOk(db, tx) && tx.phase.Ending?
    requires prices == Prices(Apply(db, tx.writes).items)
    ensures (if tx.writes.item.Some? then
               Value()(tx.writes.item.value.row) -
               (if tx.writes.item.value.key in db.items then Value()(db.items[tx.writes.item.value.key]) else 0) else 0)
            == MovementTerm(tx.writes, Worth(prices))
               + (if tx.req.GetStock? then PriceOf(prices, tx.req.item) * Drift(db, tx) else 0)
  {
    CommitUnits(db, tx);
    CommitItemShape(db, tx);
    if tx.writes.item.Some? {
      var Row(i, row) := tx.writes.item.value;
      var stock := if i in db.items then db.items[i].stock else 0;
      assert PriceOf(prices, i) == row.price;
      Distribute(row.price, row.stock - stock, stock);
    }
  }

  lemma CommitItemShape(db: Db, tx: Tx)
    requires DbOk(db) && TxOk(db, tx) && tx.phase.Ending?
    ensures tx.writes.item.Some? && tx.writes.item.value.key in db.items ==>
              tx.writes.item.value.row.price == db.items[tx.writes.item.value.key].price
    ensures tx.writes.movement.Some? ==>
              tx.writes.item.Some? && !tx.req.GetStock? && tx.writes.movement.value.item == tx.writes.item.value.key
    ensures tx.writes.item.Some? && tx.req.GetStock? ==> tx.req.item == tx.writes.item.value.key
    ensures tx.writes.item.Some? && !tx.req.GetStock? ==> tx.writes.movement.Some?
    ensures tx.writes.item.None? ==> Drift(db, tx) == 0
    ensures Drift(db, tx) != 0 ==> tx.req.GetStock? && tx.req.item in db.items
  {
    match tx.req
    case Confirm(_) =>
    case Cancel(_) =>
    case _ =>
  }

  lemma Distribute(a: int, b: int, c: int)
    ensures a * (b + c) == a * b + a * c
  {
  }

  predicate Holding(db: Db, tx: Tx, prices: map<ItemId, int>) {
    MovementTerm(tx.writes, TakenWorth(prices)) ==
    OrderChange(db, tx.writes, HeldWorth(prices)) + StrayTerm(tx, TakenWorth(prices))
  }

  lemma CommitHeld(db: Db, tx: Tx, prices: map<ItemId, int>)
    requires DbOk(db) && TxOk(db, tx) && tx.phase.Ending?
    ensures Holding(db, tx, prices)
  {
    if tx.req.OnOrder() && tx.phase.outcome in {Success, InsufficientStock} {
      TransitionHeld(db, tx, prices);
    }
    match tx.req
    case Confirm(_) =>
    case Cancel(_) =>
    case _ =>
  }

  lemma TransitionHeld(db: Db, tx: Tx, prices: map<ItemId, int>)
    requires DbOk(db) && TxOk(db, tx) && tx.req.OnOrder()
    requires tx.phase.Ending? && tx.phase.outcome in {Success, InsufficientStock}
    ensures MovementTerm(tx.writes, TakenWorth(prices)) ==
            OrderChange(db, tx.writes, HeldWorth(prices))
  {
    var o := db.orders[tx.req.order];
    match tx.req
    case Confirm(_) =>
      assert o.status == Pending;
    case Cancel(_) =>
      Distribute(PriceOf(prices, o.item), o.quantity, -o.quantity);
    case Ship(_) =>
      assert o.status == Confirmed;
    case Deliver(_) =>
      assert o.status == Shipped;
  }

  lemma FinishDrift(w: World, t: Tid)
    requires DbOk(w.db) && t in w.txs && TxOk(w.db, w.txs[t]) && w.txs[t].phase.Ending? && DriftReferences(w)
    ensures DriftReferences(Finish(w, t))
  {
    CommitPrices(w.db, w.txs[t]);
    CommitItemShape(w.db, w.txs[t]);
  }

  lemma FinishValue(w: World, t: Tid)
    requires DbOk(w.db) && t in w.txs && TxOk(w.db, w.txs[t]) && w.txs[t].phase.Ending?
    requires References(w) && DriftReferences(w) && ValueReconciles(w)
    ensures ValueReconciles(Finish(w, t))
  {
    var tx, w' := w.txs[t], Finish(w, t);
    var prices := Prices(w'.db.items);
    CommitPrices(w.db, tx);
    NewPriceKeepsValue(w, prices);
    SumAppend(w.ended, DriftWorth(prices), w'.ended[|w.ended|]);
    if w.policy.Commits(tx.phase.outcome) {
      CommitValue(w.db, t, tx, prices);
      if tx.writes.item.Some? {
        SumPut(w.db.items, Value(), tx.writes.item.value.key, tx.writes.item.value.row);
      }
      if tx.writes.movement.Some? {
        SumAppend(w.db.ledger, Worth(prices), tx.writes.movement.value);
      }
    }
  }

  lemma HeldGoesOn(w: World, t: Tid, prices: map<ItemId, int>)
    requires t in w.txs && w.txs[t].phase.Ending? && HeldReconciles(w, prices)
    requires w.policy.Commits(w.txs[t].phase.outcome) ==> Holding(w.db, w.txs[t], prices)
    ensures HeldReconciles(Finish(w, t), prices)
  {
    var tx, w' := w.txs[t], Finish(w, t);
    SumAppend(w.ended, StrayTaken(prices), w'.ended[|w.ended|]);
    if w.policy.Commits(tx.phase.outcome) {
      CommitSums(w.db, tx.writes, HeldWorth(prices), TakenWorth(prices));
    }
  }

  lemma FinishHeld(w: World, t: Tid)
    requires DbOk(w.db) && t in w.txs && TxOk(w.db, w.txs[t]) && w.txs[t].phase.Ending?
    requires References(w) && HeldReconciles(w, Prices(w.db.items))
    ensures HeldReconciles(Finish(w, t), Prices(Finish(w, t).db.items))
  {
    var prices := Prices(Finish(w, t).db.items);
    CommitPrices(w.db, w.txs[t]);
    NewPriceKeepsHeld(w, prices);
    CommitHeld(w.db, w.txs[t], prices);
    HeldGoesOn(w, t, prices);
  }

  // ---- Over every run ----

  ghost predicate Reconciled(w: World) {
    && UnitsReconcile(w) && HoldersReconcile(w) && References(w) && RefundsReconcile(w, Prices(w.db.items))
    && DriftReferences(w) && ValueReconciles(w) && HeldReconciles(w, Prices(w.db.items))
  }

  lemma FinishReconciles(w: World, t: Tid)
    requires DbOk(w.db) && t in w.txs && TxOk(w.db, w.txs[t]) && w.txs[t].phase.Ending? && Reconciled(w)
    ensures Reconciled(Finish(w, t))
  {
    FinishUnits(w, t);
    FinishHolders(w, t);
    FinishReferences(w, t);
    FinishRefunds(w, t);
    FinishDrift(w, t);
    FinishValue(w, t);
    FinishHeld(w, t);
  }

  lemma OthersReconcile(w: World, a: Action)
    requires Enabled(w, a) && Reconciled(w) && !(a.Step? && w.txs[a.tid].phase.Ending?)
    ensures Reconciled(Next(w, a))
  {
    assert Next(w, a).db == w.db && Next(w, a).ended == w.ended;
  }

  lemma {:induction false} RunReconciles(policy: Policy, cacheOn: bool, acts: seq<Action>)
    requires Runnable(Init(policy, cacheOn), acts)
    ensures Reconciled(Exec(Init(policy, cacheOn), acts))
    decreases |acts|
  {
    if acts != [] {
      var prefix, a := acts[..|acts| - 1], acts[|acts| - 1];
      RunReconciles(policy, cacheOn, prefix);
      ExecKeepsInv(Init(policy, cacheOn), prefix);
      var w := Exec(Init(policy, cacheOn), prefix);
      if a.Step? && w.txs[a.tid].phase.Ending? {
        assert TxOk(w.db, w.txs[a.tid]);
        FinishReconciles(w, a.tid);
      } else {
        OthersReconcile(w, a);
      }
    }
  }

  lemma ReachableReconciles(w: World)
    requires Reachable(w)
    ensures Reconciled(w)
  {
    var acts :| Runnable(Init(w.policy, w.cacheOn), acts) && Exec(Init(w.policy, w.cacheOn), acts) == w;
    RunReconciles(w.policy, w.cacheOn, acts);
  }

  /** In every reachable state, under every policy: net_stock_change is total_units less what stale
      write-backs moved, and deductions - restorations is confirmed + shipped + delivered plus what
      conflicting requests committed. */
  lemma MovementsReconcile(w: World)
    requires Reachable(w)
    ensures var stock, orders, moves := GetStockAnalytics(w.db), GetOrderAnalytics(w.db), GetMovementAnalytics(w.db);
            && stock.totalUnits == moves.netChange + SumLog(w.ended, DriftOf())
            && moves.deductions - moves.restorations ==
                 orders.confirmed + orders.shipped + orders.delivered + SumLog(w.ended, StrayCount())
  {
    ReachableReconciles(w);
    BalanceSplits(w.db.ledger);
    HoldersSplit(w.db.orders);
  }

  /** In every reachable state, under every policy: refund_value is the value restored, plus that of
      the orders cancelled straight from PENDING, less what conflicting requests restored. */
  lemma RefundsAccounted(w: World)
    requires Reachable(w)
    ensures var prices := Prices(w.db.items);
            GetOrderAnalytics(w.db).refundValue ==
              SumLog(w.db.ledger, RestoredWorth(prices)) + SumRows(w.db.orders, NeverDeductedWorth(prices))
              - SumLog(w.ended, StrayWorth(prices))
  {
    ReachableReconciles(w);
  }

  lemma HeldWorthSplits(orders: map<OrderId, Order>, prices: map<ItemId, int>)
    ensures SumRows(orders, HeldWorth(prices)) ==
            SumRows(orders, WorthWithStatus(prices, Confirmed)) + SumRows(orders, WorthWithStatus(prices, Shipped)) +
            SumRows(orders, WorthWithStatus(prices, Delivered))
  {
    var leaving := (o: Order) =>
      if o.status == Shipped || o.status == Delivered then PriceOf(prices, o.item) * o.quantity else 0;
    SumSplit(orders, HeldWorth(prices), WorthWithStatus(prices, Confirmed), leaving);
    SumSplit(orders, leaving, WorthWithStatus(prices, Shipped), WorthWithStatus(prices, Delivered));
  }

  /** In every reachable state, under every policy: total_value is the value of the net movement plus
      that of the write-backs. */
  lemma ValueAccounted(w: World)
    requires Reachable(w)
    ensures GetStockAnalytics(w.db).totalValue ==
              SumLog(w.db.ledger, Worth(Prices(w.db.items))) + SumLog(w.ended, DriftWorth(Prices(w.db.items)))
  {
    ReachableReconciles(w);
  }

  /** In every reachable state, under every policy: the revenue plus the value of the confirmed and
      shipped orders is the value that orders have taken out of stock, less what conflicting
      requests took. */
  lemma RevenueAccounted(w: World)
    requires Reachable(w)
    ensures var prices := Prices(w.db.items);
            GetOrderAnalytics(w.db).revenue + SumRows(w.db.orders, WorthWithStatus(prices, Confirmed))
              + SumRows(w.db.orders, WorthWithStatus(prices, Shipped)) ==
            SumLog(w.db.ledger, TakenWorth(prices)) - SumLog(w.ended, StrayTaken(prices))
  {
    ReachableReconciles(w);
    HeldWorthSplits(w.db.orders, Prices(w.db.items));
  }

  // ---- The meaning of refund_value ----

  lemma {:induction false} ZeroRows<K(!new), V>(m: map<K, V>, f: V -> int)
    requires forall k | k in m :: f(m[k]) >= 0
    ensures SumRows(m, f) == 0 <==> forall k | k in m :: f(m[k]) == 0
    decreases |m|
  {
    if m != map[] {
      var k :| k in m;
      SumRemove(m, f, k);
      ZeroRows(m - {k}, f);
      SumNonNegative(m - {k}, f);
      if forall j | j in m - {k} :: f((m - {k})[j]) == 0 {
        assert forall j | j in m && j != k :: f(m[j]) == f((m - {k})[j]);
      }
    }
  }

  lemma NeverDeductedIsPositive(db: Db, o: OrderId)
    requires DbOk(db) && o in db.orders
    ensures NeverDeductedWorth(Prices(db.items))(db.orders[o]) >= 0
    ensures NeverDeductedWorth(Prices(db.items))(db.orders[o]) == 0 <==>
              !CancelledFromPending(db.orders[o])
  {
    assert ItemOk(db.items[db.orders[o].item]);
    Positive(PriceOf(Prices(db.items), db.orders[o].item), db.orders[o].quantity);
  }

  lemma NeverDeductedVanishes(db: Db)
    requires DbOk(db)
    ensures SumRows(db.orders, NeverDeductedWorth(Prices(db.items))) == 0 <==>
              forall o | o in db.orders :: !CancelledFromPending(db.orders[o])
  {
    forall o | o in db.orders
      ensures NeverDeductedWorth(Prices(db.items))(db.orders[o]) >= 0
      ensures NeverDeductedWorth(Prices(db.items))(db.orders[o]) == 0 <==>
                !CancelledFromPending(db.orders[o])
    {
      NeverDeductedIsPositive(db, o);
    }
    ZeroRows(db.orders, NeverDeductedWorth(Prices(db.items)));
  }

  /** A restoration that a request committed although it ended in ConflictError. */
  predicate StrayRestoration(e: Ended) {
    && e.committed && e.outcome == Conflict
    && e.writes.movement.Some? && e.writes.movement.value.kind == Restoration
  }

  lemma StraysVanish(w: World)
    requires Reachable(w) && !w.policy.Commits(Conflict)
    ensures SumLog(w.ended, StrayCount()) == 0
    ensures forall e | e in w.ended :: !StrayRestoration(e)
  {
    var acts :| Runnable(Init(w.policy, w.cacheOn), acts) && Exec(Init(w.policy, w.cacheOn), acts) == w;
    RollbackCommitsNoConflict(w.policy, w.cacheOn, acts);
    ZeroLog(w.ended, StrayCount());
  }

  /** refund_value is what its description says, the value of the stock that was restored, exactly
      when the orders cancelled straight from PENDING are worth as much as the restorations that
      conflicting requests committed; if there are none of these, exactly when no order was cancelled
      straight from PENDING. There are none if conflicts roll back, and then the orders that hold
      stock are the deductions less the restorations. */
  lemma RefundMatchesMeaning(w: World)
    requires Reachable(w)
    ensures var prices, refund := Prices(w.db.items), GetOrderAnalytics(w.db).refundValue;
            && (refund == SumLog(w.db.ledger, RestoredWorth(prices)) <==>
                SumRows(w.db.orders, NeverDeductedWorth(prices)) == SumLog(w.ended, StrayWorth(prices)))
            && ((forall e | e in w.ended :: !StrayRestoration(e)) ==>
                  (refund == SumLog(w.db.ledger, RestoredWorth(prices)) <==>
                   forall o | o in w.db.orders :: !CancelledFromPending(w.db.orders[o])))
    ensures !w.policy.Commits(Conflict) ==>
              && (forall e | e in w.ended :: !StrayRestoration(e))
              && var orders, moves := GetOrderAnalytics(w.db), GetMovementAnalytics(w.db);
                 moves.deductions - moves.restorations == orders.confirmed + orders.shipped + orders.delivered
  {
    RefundsAccounted(w);
    ReachableDbOk(w);
    NeverDeductedVanishes(w.db);
    if forall e | e in w.ended :: !StrayRestoration(e) {
      ZeroLog(w.ended, StrayWorth(Prices(w.db.items)));
    }
    if !w.policy.Commits(Conflict) {
      StraysVanish(w);
      MovementsReconcile(w);
    }
  }

  lemma ReachableDbOk(w: World)
    requires Reachable(w)
    ensures DbOk(w.db)
  {
    ReachableInv(w);
  }

  lemma Positive(a: int, b: int)
    requires a > 0 && b > 0
    ensures a * b > 0
  {
  }
}
