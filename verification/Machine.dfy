/** Many requests at once. Every request is a transaction that executes the statements of its
    service method one at a time; a scheduler picks who moves. Reads see committed rows
    (Read Committed, PostgreSQL 16 documentation, section 13.2.1); SELECT FOR UPDATE, UPDATE and
    the foreign-key check of an INSERT take row locks (section 13.3.2) and wait for them. */
module Machine {
  import opened Domain
  import opened Spec

  type Tid = nat

  /** The row lock a transaction holds on an item. */
  datatype Lock =
    | Free
    | ForUpdate(item: ItemId)    // SELECT ... FOR UPDATE, or the inserter of the row
    | NoKeyUpdate(item: ItemId)  // UPDATE of columns that are not the key
    | KeyShare(item: ItemId)     // INSERT of a row that references the item

  predicate Clash(a: Lock, b: Lock) {
    && !a.Free? && !b.Free? && a.item == b.item
    && (a.ForUpdate? || b.ForUpdate? || (a.NoKeyUpdate? && b.NoKeyUpdate?))
  }

  /** The statement a transaction executes next. */
  datatype Phase =
    | Reading                      // the first read of the service method
    | Fetching(hit: Option<int>)   // get_stock: the cache was asked, the row is read next
    | Locking                      // get_by_id_with_lock
    | Writing(row: Item)           // row locked and read: change it, append the movement, flush
    | Caching                      // set_stock
    | Inserting                    // place_order: insert the order
    | Updating(target: Status)     // transition_status
    | WritingBack(quantity: int)   // get_stock: flush of the row that holds the cached quantity
    | Ending(outcome: Outcome)     // the service method has ended; get_db commits or rolls back

  /** An open transaction: the order row it has read, the lock it holds, what it has flushed, and the
      quantity that get_stock is going to report. */
  datatype Tx = Tx(req: Request, phase: Phase, order: Option<Order>, lock: Lock, writes: Writes,
                   quantity: Option<int>)

  /** A transaction that has done nothing yet. */
  function Opened(req: Request): Tx {
    Tx(req, Reading, None, Free, NOTHING, None)
  }

  /** A request that has ended, whether get_db committed it, and what it had flushed. The drift is
      how far a committed write-back moved the committed stock. */
  datatype Ended = Ended(tid: Tid, req: Request, outcome: Outcome, committed: bool, writes: Writes, drift: int,
                         quantity: Option<int>)

  /** A request and its reply at its linearization point. */
  datatype Entry = Entry(tid: Tid, req: Request, reply: Reply)

  /** The tables, the cache and the open transactions; ended and serial only record history. */
  datatype World = World(policy: Policy, cacheOn: bool, db: Db, cache: map<ItemId, int>,
                         txs: map<Tid, Tx>, ended: seq<Ended>, serial: seq<Entry>)

  function Init(policy: Policy, cacheOn: bool): World {
    World(policy, cacheOn, EMPTY_DB, map[], map[], [], [])
  }

  /** A glitch loses a set_stock or fails a cache read; other statements ignore it. */
  datatype Action =
    | Begin(tid: Tid, req: Request)
    | Step(tid: Tid, glitch: bool)
    | Abort(tid: Tid)        // the connection or the process dies: rollback
    | Expire(item: ItemId)   // a cache entry times out or is evicted

  // ---- One statement ----

  /** The item row a transaction is about. */
  function ItemKey(tx: Tx): ItemId {
    match tx.req
    case CreateItem(id, _, _, _) => id
    case PlaceOrder(_, item, _) => item
    case AdjustStock(item, _) => item
    case GetStock(item) => item
    case _ => if tx.order.Some? then tx.order.value.item else 0
  }

  /** The flushed stock change of a confirm, a cancel or an adjustment that read this item row. */
  function StockWrites(tx: Tx, row: Item): Writes
    requires tx.req.AdjustStock? || (tx.req.OnOrder() && tx.order.Some?)
  {
    match tx.req
    case AdjustStock(item, delta) => Moved(item, row, None, Adjustment, delta)
    case Confirm(id) => Moved(ItemKey(tx), row, Some(id), Deduction, -tx.order.value.quantity)
    case _ => Moved(ItemKey(tx), row, Some(tx.req.order), Restoration, tx.order.value.quantity)
  }

  function End(tx: Tx, o: Outcome): Tx {
    tx.(phase := Ending(o))
  }

  /** The first read of confirm, ship, deliver and cancel. */
  function ReadOrder(db: Db, tx: Tx): Tx
    requires tx.req.OnOrder()
  {
    if tx.req.order !in db.orders then End(tx, NotFound)
    else
      var o := db.orders[tx.req.order];
      var target := tx.req.Target();
      if !o.status.CanTransitionTo(target) then End(tx, InvalidTransition)
      else if tx.req.Confirm? || (tx.req.Cancel? && o.status in STOCK_HOLDING_STATES) then
        tx.(order := Some(o), phase := Locking)
      else
        tx.(order := Some(o), phase := Updating(target))
  }

  /** The first statement of a service method. */
  function First(db: Db, hit: Option<int>, tx: Tx): Tx {
    match tx.req
    case CreateItem(id, stock, threshold, price) =>
      tx.(phase := Caching, lock := ForUpdate(id), writes := Creation(id, stock, threshold, price))
    case PlaceOrder(_, item, _) =>
      if item in db.items then tx.(phase := Inserting) else End(tx, NotFound)
    case AdjustStock(_, _) => tx.(phase := Locking)
    case GetStock(_) => tx.(phase := Fetching(hit))
    case _ => ReadOrder(db, tx)
  }

  /** get_by_id_with_lock and the checks on the row it returns. */
  function AfterLock(db: Db, tx: Tx): Tx
    requires tx.req.AdjustStock? || (tx.req.OnOrder() && tx.order.Some?)
  {
    var i := ItemKey(tx);
    if i !in db.items then
      if tx.req.Cancel? then tx.(phase := Updating(Cancelled)) else End(tx, NotFound)
    else
      var row := db.items[i];
      var locked := tx.(lock := ForUpdate(i));
      if tx.req.Confirm? && row.stock < tx.order.value.quantity then locked.(phase := Updating(Rejected))
      else if tx.req.AdjustStock? && row.stock + tx.req.delta < 0 then End(locked, InsufficientStock)
      else locked.(phase := Writing(row))
  }

  /** The row still carries the version that the transaction read. */
  predicate VersionMatches(db: Db, tx: Tx) {
    && tx.req.OnOrder() && tx.order.Some?
    && tx.req.order in db.orders && db.orders[tx.req.order].version == tx.order.value.version
  }

  /** transition_status: UPDATE ... WHERE id = .. AND version = .. */
  function ConditionalUpdate(db: Db, tx: Tx, target: Status): Tx {
    if VersionMatches(db, tx) then
      var row := NewStatus(db.orders[tx.req.order], target);
      End(tx.(writes := tx.writes.(order := Some(Row(tx.req.order, row)))),
          if target == Rejected then InsufficientStock else Success)
    else End(tx, Conflict)
  }

  /** Reading the row in get_stock, and the assignment of the cached quantity to it. */
  function Fetch(db: Db, tx: Tx, hit: Option<int>): Tx {
    if ItemKey(tx) !in db.items then End(tx, NotFound)
    else if hit.None? || hit.value == db.items[ItemKey(tx)].stock then
      End(tx.(quantity := Some(db.items[ItemKey(tx)].stock)), Success)
    else tx.(phase := WritingBack(hit.value), quantity := hit)
  }

  /** One statement of a transaction, given the committed tables and its cache lookup. */
  function Advance(db: Db, hit: Option<int>, tx: Tx): Tx {
    match tx.phase
    case Reading => First(db, hit, tx)
    case Fetching(hit) => Fetch(db, tx, hit)
    case Locking =>
      if tx.req.AdjustStock? || (tx.req.OnOrder() && tx.order.Some?) then AfterLock(db, tx) else tx
    case Writing(row) =>
      if tx.req.AdjustStock? || (tx.req.OnOrder() && tx.order.Some?)
      then tx.(writes := StockWrites(tx, row), phase := Caching) else tx
    case Caching => if tx.req.OnOrder() then tx.(phase := Updating(tx.req.Target())) else End(tx, Success)
    case Inserting =>
      if tx.req.PlaceOrder? then
        var order := Order(tx.req.item, tx.req.quantity, Pending, 1);
        End(tx.(lock := KeyShare(tx.req.item), writes := tx.writes.(order := Some(Row(tx.req.newOrder, order)))),
            Success)
      else tx
    case Updating(target) => ConditionalUpdate(db, tx, target)
    case WritingBack(quantity) =>
      if ItemKey(tx) in db.items then
        var i := ItemKey(tx);
        var row := db.items[i].(stock := quantity);
        End(tx.(lock := NoKeyUpdate(i), writes := tx.writes.(item := Some(Row(i, row)))), Success)
      else tx
    case Ending(_) => tx
  }

  // ---- Waiting ----

  predicate OthersClash(txs: map<Tid, Tx>, t: Tid, lock: Lock) {
    exists u | u in txs :: u != t && Clash(txs[u].lock, lock)
  }

  predicate OthersWroteOrder(txs: map<Tid, Tx>, t: Tid, id: OrderId) {
    exists u | u in txs :: u != t && txs[u].writes.order.Some? && txs[u].writes.order.value.key == id
  }

  /** The next statement of t has to wait for a row lock. A conditional update whose version
      already differs in the committed row matches nothing and does not wait. */
  predicate Waits(w: World, t: Tid)
    requires t in w.txs
  {
    var tx := w.txs[t];
    match tx.phase
    case Locking => ItemKey(tx) in w.db.items && OthersClash(w.txs, t, ForUpdate(ItemKey(tx)))
    case Inserting => OthersClash(w.txs, t, KeyShare(ItemKey(tx)))
    case WritingBack(_) => OthersClash(w.txs, t, NoKeyUpdate(ItemKey(tx)))
    case Updating(_) => VersionMatches(w.db, tx) && OthersWroteOrder(w.txs, t, tx.req.order)
    case _ => false
  }

  // ---- One action ----

  /** Nobody else is creating the row that req is about to create. */
  predicate FreshAmong(txs: map<Tid, Tx>, req: Request) {
    forall u | u in txs ::
      && (req.CreateItem? && txs[u].req.CreateItem? ==> req.newItem != txs[u].req.newItem)
      && (req.PlaceOrder? && txs[u].req.PlaceOrder? ==> req.newOrder != txs[u].req.newOrder)
  }

  predicate Enabled(w: World, a: Action) {
    match a
    case Begin(t, req) => t !in w.txs && req.WellFormed() && FreshIn(w.db, req) && FreshAmong(w.txs, req)
    case Step(t, _) => t in w.txs && !Waits(w, t)
    case Abort(t) => t in w.txs
    case Expire(_) => true
  }

  function EntryOf(t: Tid, tx: Tx): Entry
    requires tx.phase.Ending?
  {
    Entry(t, tx.req, Reply(tx.phase.outcome, tx.quantity))
  }

  /** Requests that fail a read, and a get_stock that writes nothing, take effect at that read; all
      others when they end. A ConflictError takes effect nowhere. */
  function Linearize(t: Tid, before: Tx, after: Tx): seq<Entry> {
    if after.phase.Ending? && !before.phase.Ending? &&
       (before.phase.Fetching? || after.phase.outcome in {NotFound, InvalidTransition})
    then [EntryOf(t, after)] else []
  }

  function LinearizeEnd(t: Tid, tx: Tx): seq<Entry> {
    if tx.phase.Ending? && tx.phase.outcome in {Success, InsufficientStock} &&
       !(tx.req.GetStock? && tx.writes == NOTHING)
    then [EntryOf(t, tx)] else []
  }

  function Lookup(w: World, req: Request, glitch: bool): Option<int> {
    if w.cacheOn && !glitch && req.GetStock? && req.item in w.cache then Some(w.cache[req.item]) else None
  }

  function CacheAfter(w: World, tx: Tx, glitch: bool): map<ItemId, int> {
    if tx.phase.Caching? && w.cacheOn && !glitch && tx.writes.item.Some?
    then w.cache[tx.writes.item.value.key := tx.writes.item.value.row.stock] else w.cache
  }

  /** How far a write-back moves the committed stock. */
  function Drift(db: Db, tx: Tx): int {
    if tx.req.GetStock? && tx.writes.item.Some? && tx.writes.item.value.key in db.items
    then tx.writes.item.value.row.stock - db.items[tx.writes.item.value.key].stock else 0
  }

  /** get_db at the end of a request. */
  function Finish(w: World, t: Tid): World
    requires t in w.txs && w.txs[t].phase.Ending?
  {
    var tx := w.txs[t];
    var commits := w.policy.Commits(tx.phase.outcome);
    w.(db := if commits then Apply(w.db, tx.writes) else w.db,
       txs := w.txs - {t},
       ended := w.ended + [Ended(t, tx.req, tx.phase.outcome, commits, tx.writes,
                                 if commits then Drift(w.db, tx) else 0, tx.quantity)],
       serial := w.serial + LinearizeEnd(t, tx))
  }

  function Next(w: World, a: Action): World
    requires Enabled(w, a)
  {
    match a
    case Begin(t, req) => w.(txs := w.txs[t := Opened(req)])
    case Step(t, glitch) =>
      var tx := w.txs[t];
      if tx.phase.Ending? then Finish(w, t)
      else
        var tx' := Advance(w.db, Lookup(w, tx.req, glitch), tx);
        w.(txs := w.txs[t := tx'],
           cache := CacheAfter(w, tx, glitch),
           serial := w.serial + Linearize(t, tx, tx'))
    case Abort(t) => w.(txs := w.txs - {t})
    case Expire(i) => w.(cache := w.cache - {i})
  }

  // ---- Runs ----

  predicate Runnable(w: World, acts: seq<Action>)
    decreases |acts|, 0
  {
    acts == [] ||
    (Runnable(w, acts[..|acts| - 1]) && Enabled(Exec(w, acts[..|acts| - 1]), acts[|acts| - 1]))
  }

  function Exec(w: World, acts: seq<Action>): World
    requires Runnable(w, acts)
    decreases |acts|, 1
  {
    if acts == [] then w else Next(Exec(w, acts[..|acts| - 1]), acts[|acts| - 1])
  }

  lemma ExecAppend(w: World, acts: seq<Action>, a: Action)
    requires Runnable(w, acts) && Enabled(Exec(w, acts), a)
    ensures Runnable(w, acts + [a]) && Exec(w, acts + [a]) == Next(Exec(w, acts), a)
  {
    assert (acts + [a])[..|acts|] == acts;
  }

  /** A state that some interleaving of requests, crashes and cache faults leads to. */
  ghost predicate Reachable(w: World) {
    exists acts :: Runnable(Init(w.policy, w.cacheOn), acts) && Exec(Init(w.policy, w.cacheOn), acts) == w
  }
}
