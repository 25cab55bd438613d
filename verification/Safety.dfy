/** The invariant of the engine, kept by every action under every commit policy, with crashes,
    cache faults and get_stock write-backs included; and what it means for stock and versions. */
module Safety {
  import opened Domain
  import opened Spec
  import opened Machine

  // ---- What an open transaction knows ----

  /** A row read earlier: it is still current exactly while its version is. */
  predicate Seen(db: Db, id: OrderId, o: Order) {
    && id in db.orders
    && LifeCycle(o.status, o.version)
    && o.version <= db.orders[id].version
    && o.item == db.orders[id].item
    && o.quantity == db.orders[id].quantity
    && (o.version == db.orders[id].version ==> o == db.orders[id])
  }

  /** An order transaction past its first read: its snapshot was seen and allows the request. */
  predicate ReadOrderOk(db: Db, tx: Tx) {
    && tx.req.OnOrder() && tx.order.Some?
    && Seen(db, tx.req.order, tx.order.value)
    && tx.order.value.status.CanTransitionTo(tx.req.Target())
  }

  predicate MovesStock(db: Db, tx: Tx) {
    || tx.req.AdjustStock?
    || (tx.req.Confirm? && ReadOrderOk(db, tx))
    || (tx.req.Cancel? && ReadOrderOk(db, tx) && tx.order.value.status in STOCK_HOLDING_STATES)
  }

  /** The item row is locked, so it is what the transaction read under the lock. */
  predicate HasRow(db: Db, tx: Tx) {
    tx.lock == ForUpdate(ItemKey(tx)) && ItemKey(tx) in db.items
  }

  /** The flushed stock change is the one for the current row, and does not oversell. */
  predicate Flushed(db: Db, tx: Tx) {
    && MovesStock(db, tx) && HasRow(db, tx)
    && StockWrites(tx, db.items[ItemKey(tx)]).item == tx.writes.item
    && StockWrites(tx, db.items[ItemKey(tx)]).movement == tx.writes.movement
    && tx.writes.item.value.row.stock >= 0
  }

  predicate Idle(tx: Tx) {
    tx.lock == Free && tx.writes == NOTHING
  }

  predicate UpdatingOk(db: Db, tx: Tx, target: Status) {
    && ReadOrderOk(db, tx)
    && tx.writes.order.None?
    && match tx.req
       case Confirm(_) =>
         if target == Rejected then
           HasRow(db, tx) && tx.writes == NOTHING && db.items[ItemKey(tx)].stock < tx.order.value.quantity
         else target == Confirmed && Flushed(db, tx)
       case Cancel(_) =>
         && target == Cancelled
         && (if tx.order.value.status in STOCK_HOLDING_STATES then Flushed(db, tx) else Idle(tx))
       case _ => target == tx.req.Target() && Idle(tx)
  }

  /** get_stock has flushed nothing, or the current row with a cached quantity in it. */
  predicate WriteBackOk(db: Db, tx: Tx) {
    || tx.writes == NOTHING
    || (&& ItemKey(tx) in db.items && tx.lock == NoKeyUpdate(ItemKey(tx))
        && tx.writes.item.Some?
        && tx.writes.item.value.row.stock >= 0
        && tx.writes == NOTHING.(item := Some(Row(ItemKey(tx),
             db.items[ItemKey(tx)].(stock := tx.writes.item.value.row.stock)))))
  }

  /** The locks that keep the plan of a transaction valid until it commits. */
  predicate EndingLock(tx: Tx) {
    match tx.req
    case CreateItem(id, _, _, _) => tx.lock == ForUpdate(id)
    case PlaceOrder(_, item, _) => tx.lock == KeyShare(item)
    case AdjustStock(item, _) => tx.lock == ForUpdate(item)
    case Confirm(_) => tx.order.Some? && tx.lock == ForUpdate(tx.order.value.item)
    case Cancel(_) => tx.order.Some? && (tx.writes.item.Some? ==> tx.lock == ForUpdate(tx.order.value.item))
    case _ => true
  }

  /** A transaction that is about to end with its effect: what it flushed is what the request,
      run atomically on the committed tables, writes. */
  predicate EndingOk(db: Db, tx: Tx, outcome: Outcome) {
    match outcome
    case NotFound => Idle(tx)
    case InvalidTransition => Idle(tx)
    case Conflict =>
      && tx.req.OnOrder() && ReadOrderOk(db, tx) && tx.writes.order.None?
      && tx.order.value != db.orders[tx.req.order]
      && (tx.writes == NOTHING || Flushed(db, tx))
    case _ =>
      if tx.req.GetStock? then outcome == Success && WriteBackOk(db, tx)
      else
        && Plan(db, tx.req) == Planned(outcome, tx.writes)
        && EndingLock(tx)
        && (tx.req.OnOrder() ==> ReadOrderOk(db, tx) && tx.order.value == db.orders[tx.req.order])
  }

  /** Locks are on rows that exist or on the row being created. */
  predicate LockOk(db: Db, tx: Tx) {
    tx.lock.Free? || tx.lock.item in db.items || (tx.req.CreateItem? && tx.lock == ForUpdate(tx.req.newItem))
  }

  /** Only get_stock reports a quantity; one that writes back reports what it writes. */
  predicate QuantityOk(tx: Tx) {
    && (tx.quantity.Some? ==> tx.req.GetStock? && tx.quantity.value >= 0)
    && (tx.req.GetStock? ==>
          match tx.phase
          case WritingBack(quantity) => tx.quantity == Some(quantity)
          case Ending(outcome) =>
            && (tx.quantity.Some? <==> outcome == Success)
            && (tx.writes.item.Some? ==> tx.quantity == Some(tx.writes.item.value.row.stock))
          case _ => tx.quantity.None?)
  }

  predicate TxOk(db: Db, tx: Tx) {
    && tx.req.WellFormed()
    && QuantityOk(tx)
    && FreshIn(db, tx.req)
    && LockOk(db, tx)
    && PhaseOk(db, tx)
  }

  predicate PhaseOk(db: Db, tx: Tx) {
    match tx.phase
       case Reading => Idle(tx)
       case Fetching(hit) => tx.req.GetStock? && Idle(tx) && (hit.Some? ==> hit.value >= 0)
       case Locking => MovesStock(db, tx) && Idle(tx)
       case Writing(row) =>
         && MovesStock(db, tx) && HasRow(db, tx) && db.items[ItemKey(tx)] == row && tx.writes == NOTHING
         && StockWrites(tx, row).item.value.row.stock >= 0
       case Caching =>
         && tx.writes.order.None?
         && if tx.req.CreateItem? then
              && tx.lock == ForUpdate(tx.req.newItem)
              && tx.writes == Creation(tx.req.newItem, tx.req.stock, tx.req.threshold, tx.req.price)
            else Flushed(db, tx)
       case Inserting => tx.req.PlaceOrder? && Idle(tx) && tx.req.item in db.items
       case Updating(target) => UpdatingOk(db, tx, target)
       case WritingBack(quantity) => tx.req.GetStock? && Idle(tx) && quantity >= 0 && tx.req.item in db.items
       case Ending(outcome) => EndingOk(db, tx, outcome)
  }

  // ---- What two open transactions exclude ----

  predicate Compatible(a: Tx, b: Tx) {
    && !Clash(a.lock, b.lock)
    && (a.writes.order.Some? && b.writes.order.Some? ==> a.writes.order.value.key != b.writes.order.value.key)
    && (a.req.CreateItem? && b.req.CreateItem? ==> a.req.newItem != b.req.newItem)
    && (a.req.PlaceOrder? && b.req.PlaceOrder? ==> a.req.newOrder != b.req.newOrder)
  }

  ghost predicate Inv(w: World) {
    && DbOk(w.db)
    && (forall i | i in w.cache :: w.cache[i] >= 0)
    && (forall t | t in w.txs :: TxOk(w.db, w.txs[t]))
    && (forall t, u | t in w.txs && u in w.txs && t != u :: Compatible(w.txs[t], w.txs[u]))
  }

  // ---- Statements keep it ----

  lemma FirstKeepsTx(db: Db, hit: Option<int>, tx: Tx)
    requires DbOk(db) && TxOk(db, tx) && tx.phase.Reading? && (hit.Some? ==> hit.value >= 0)
    ensures TxOk(db, First(db, hit, tx))
  {
  }

  lemma AfterLockKeepsTx(db: Db, tx: Tx)
    requires DbOk(db) && TxOk(db, tx) && tx.phase.Locking?
    ensures TxOk(db, AfterLock(db, tx))
  {
  }

  lemma WritingKeepsTx(db: Db, tx: Tx)
    requires DbOk(db) && TxOk(db, tx) && tx.phase.Writing?
    ensures TxOk(db, tx.(writes := StockWrites(tx, tx.phase.row), phase := Caching))
  {
  }

  lemma CachingKeepsTx(db: Db, hit: Option<int>, tx: Tx)
    requires DbOk(db) && TxOk(db, tx) && tx.phase.Caching?
    ensures TxOk(db, Advance(db, hit, tx))
  {
  }

  lemma UpdateKeepsTx(db: Db, tx: Tx)
    requires DbOk(db) && TxOk(db, tx) && tx.phase.Updating?
    ensures TxOk(db, ConditionalUpdate(db, tx, tx.phase.target))
  {
  }

  lemma ReadKeepsTx(db: Db, hit: Option<int>, tx: Tx)
    requires DbOk(db) && TxOk(db, tx) && (tx.phase.Fetching? || tx.phase.WritingBack?)
    ensures TxOk(db, Advance(db, hit, tx))
  {
  }

  lemma InsertKeepsTx(db: Db, hit: Option<int>, tx: Tx)
    requires DbOk(db) && TxOk(db, tx) && tx.phase.Inserting?
    ensures TxOk(db, Advance(db, hit, tx))
  {
  }

  lemma AdvanceKeepsTx(db: Db, hit: Option<int>, tx: Tx)
    requires DbOk(db) && TxOk(db, tx) && (hit.Some? ==> hit.value >= 0)
    ensures TxOk(db, Advance(db, hit, tx))
  {
    match tx.phase
    case Reading => FirstKeepsTx(db, hit, tx);
    case Locking => AfterLockKeepsTx(db, tx);
    case Writing(_) => WritingKeepsTx(db, tx);
    case Caching => CachingKeepsTx(db, hit, tx);
    case Updating(_) => UpdateKeepsTx(db, tx);
    case Fetching(_) => ReadKeepsTx(db, hit, tx);
    case WritingBack(_) => ReadKeepsTx(db, hit, tx);
    case Inserting => InsertKeepsTx(db, hit, tx);
    case Ending(_) =>
  }

  /** The locks and order rows a statement acquires. */
  lemma AdvanceAcquires(db: Db, hit: Option<int>, tx: Tx)
    requires TxOk(db, tx)
    ensures var tx' := Advance(db, hit, tx);
            && tx'.req == tx.req
            && (tx'.lock == tx.lock ||
                match tx.phase
                case Reading => tx.req.CreateItem? && tx'.lock == ForUpdate(tx.req.newItem)
                case Locking => ItemKey(tx) in db.items && tx'.lock == ForUpdate(ItemKey(tx))
                case Inserting => tx'.lock == KeyShare(ItemKey(tx))
                case WritingBack(_) => tx'.lock == NoKeyUpdate(ItemKey(tx))
                case _ => false)
            && (tx'.writes.order == tx.writes.order ||
                (tx'.writes.order.Some? &&
                 match tx.phase
                 case Inserting => tx.req.PlaceOrder? && tx'.writes.order.value.key == tx.req.newOrder
                 case Updating(_) => VersionMatches(db, tx) && tx'.writes.order.value.key == tx.req.order
                 case _ => false))
  {
  }

  /** Order rows that a transaction has written exist, or are its own new one. */
  lemma WrittenOrderIsKnown(db: Db, tx: Tx)
    requires TxOk(db, tx) && tx.writes.order.Some?
    ensures tx.writes.order.value.key in db.orders ||
            (tx.req.PlaceOrder? && tx.writes.order.value.key == tx.req.newOrder)
  {
  }

  /** A new lock or order write is one that nobody else's clashes with. */
  lemma AdvanceKeepsCompatible(w: World, t: Tid, hit: Option<int>, u: Tid)
    requires Inv(w) && t in w.txs && u in w.txs && t != u && !Waits(w, t)
    ensures Compatible(Advance(w.db, hit, w.txs[t]), w.txs[u])
  {
    var tx, other := w.txs[t], w.txs[u];
    assert Compatible(tx, other) && LockOk(w.db, other) && FreshIn(w.db, tx.req) && FreshIn(w.db, other.req);
    AdvanceAcquires(w.db, hit, tx);
    if other.writes.order.Some? {
      WrittenOrderIsKnown(w.db, other);
    }
  }

  // ---- A commit keeps it ----

  /** The rows a transaction commits satisfy the table constraints. */
  predicate WritesOk(db: Db, w: Writes) {
    && (w.item.Some? ==> ItemOk(w.item.value.row))
    && (w.order.Some? ==>
          var Row(id, o) := w.order.value;
          && o.quantity > 0 && o.item in db.items && LifeCycle(o.status, o.version)
          && (if id in db.orders then OrderMoved(db.orders[id], o) else o.status == Pending && o.version == 1))
  }

  lemma ConfirmWritesOk(db: Db, tx: Tx)
    requires DbOk(db) && TxOk(db, tx) && tx.phase.Ending? && tx.req.Confirm?
    ensures WritesOk(db, tx.writes)
  {
  }

  lemma CancelWritesOk(db: Db, tx: Tx)
    requires DbOk(db) && TxOk(db, tx) && tx.phase.Ending? && tx.req.Cancel?
    ensures WritesOk(db, tx.writes)
  {
  }

  lemma CommitWritesOk(db: Db, tx: Tx)
    requires DbOk(db) && TxOk(db, tx) && tx.phase.Ending?
    ensures WritesOk(db, tx.writes)
  {
    match tx.req
    case Confirm(_) => ConfirmWritesOk(db, tx);
    case Cancel(_) => CancelWritesOk(db, tx);
    case _ =>
  }

  lemma ApplyKeepsDb(db: Db, writes: Writes)
    requires DbOk(db) && WritesOk(db, writes)
    ensures DbOk(Apply(db, writes))
  {
  }

  lemma CommitKeepsDb(db: Db, tx: Tx)
    requires DbOk(db) && TxOk(db, tx) && tx.phase.Ending?
    ensures DbOk(Apply(db, tx.writes))
  {
    CommitWritesOk(db, tx);
    ApplyKeepsDb(db, tx.writes);
  }

  /** What another transaction can observe of a commit: rows only appear, orders only move on to a
      higher version, and the rows it has locked or written stay as they are. */
  ghost predicate Untouched(db: Db, db': Db, other: Tx) {
    && db.items.Keys <= db'.items.Keys
    && db.orders.Keys <= db'.orders.Keys
    && FreshIn(db', other.req)
    && (other.lock.ForUpdate? || other.lock.NoKeyUpdate? ==>
          other.lock.item in db.items ==> db'.items[other.lock.item] == db.items[other.lock.item])
    && (forall id | id in db.orders :: OrderMoved(db.orders[id], db'.orders[id]))
    && (other.writes.order.Some? ==>
          other.writes.order.value.key in db.orders ==>
          db'.orders[other.writes.order.value.key] == db.orders[other.writes.order.value.key])
  }

  /** An order row is as before, or one allowed transition further. */
  predicate OrderMoved(o: Order, o': Order) {
    o' == o || (o.status.CanTransitionTo(o'.status) && o' == NewStatus(o, o'.status))
  }

  lemma WrittenRowIsLocked(db: Db, tx: Tx)
    requires TxOk(db, tx) && tx.writes.item.Some?
    ensures tx.lock == ForUpdate(tx.writes.item.value.key) || tx.lock == NoKeyUpdate(tx.writes.item.value.key)
  {
  }

  /** New rows are the ones the request was given fresh identifiers for. */
  lemma WritesKnownRows(db: Db, tx: Tx)
    requires DbOk(db) && TxOk(db, tx) && tx.phase.Ending?
    ensures tx.writes.item.Some? ==>
              tx.writes.item.value.key in db.items || (tx.req.CreateItem? && tx.writes.item.value.key == tx.req.newItem)
    ensures tx.writes.order.Some? ==>
              tx.writes.order.value.key in db.orders ||
              (tx.req.PlaceOrder? && tx.writes.order.value.key == tx.req.newOrder)
  {
  }

  lemma CommitLeaves(db: Db, tx: Tx, other: Tx)
    requires DbOk(db) && TxOk(db, tx) && tx.phase.Ending? && TxOk(db, other) && Compatible(tx, other)
    ensures Untouched(db, Apply(db, tx.writes), other)
  {
    CommitWritesOk(db, tx);
    WritesKnownRows(db, tx);
    if tx.writes.item.Some? {
      WrittenRowIsLocked(db, tx);
    }
    UntouchedBy(db, tx, other);
  }

  lemma UntouchedBy(db: Db, tx: Tx, other: Tx)
    requires WritesOk(db, tx.writes) && Compatible(tx, other) && FreshIn(db, other.req)
    requires tx.writes.item.Some? ==>
               && (tx.lock == ForUpdate(tx.writes.item.value.key) || tx.lock == NoKeyUpdate(tx.writes.item.value.key))
               && (tx.writes.item.value.key in db.items ||
                   (tx.req.CreateItem? && tx.writes.item.value.key == tx.req.newItem))
    requires tx.writes.order.Some? ==>
               tx.writes.order.value.key in db.orders ||
               (tx.req.PlaceOrder? && tx.writes.order.value.key == tx.req.newOrder)
    ensures Untouched(db, Apply(db, tx.writes), other)
  {
  }

  lemma ReadOrderStays(db: Db, db': Db, other: Tx)
    requires ReadOrderOk(db, other) && Untouched(db, db', other)
    ensures ReadOrderOk(db', other)
    ensures other.order.value != db.orders[other.req.order] ==> other.order.value != db'.orders[other.req.order]
  {
  }

  lemma FlushedStays(db: Db, db': Db, other: Tx)
    requires Flushed(db, other) && Untouched(db, db', other)
    ensures Flushed(db', other)
  {
    if ReadOrderOk(db, other) {
      ReadOrderStays(db, db', other);
    }
  }

  lemma EndingStays(db: Db, db': Db, other: Tx)
    requires DbOk(db) && TxOk(db, other) && other.phase.Ending? && Untouched(db, db', other)
    ensures EndingOk(db', other, other.phase.outcome)
  {
    if ReadOrderOk(db, other) {
      ReadOrderStays(db, db', other);
    }
    if Flushed(db, other) {
      FlushedStays(db, db', other);
    }
  }

  lemma CommitKeepsOther(db: Db, tx: Tx, other: Tx)
    requires DbOk(db) && TxOk(db, tx) && tx.phase.Ending? && TxOk(db, other) && Compatible(tx, other)
    ensures TxOk(Apply(db, tx.writes), other)
  {
    var db' := Apply(db, tx.writes);
    CommitLeaves(db, tx, other);
    if ReadOrderOk(db, other) {
      ReadOrderStays(db, db', other);
    }
    if Flushed(db, other) {
      FlushedStays(db, db', other);
    }
    if other.phase.Ending? {
      EndingStays(db, db', other);
    }
  }

  lemma FinishKeepsInv(w: World, t: Tid)
    requires Inv(w) && t in w.txs && w.txs[t].phase.Ending?
    ensures Inv(Finish(w, t))
  {
    var tx, w' := w.txs[t], Finish(w, t);
    CommitKeepsDb(w.db, tx);
    forall u | u in w'.txs ensures TxOk(w'.db, w'.txs[u]) {
      assert Compatible(tx, w.txs[u]) && TxOk(w.db, w.txs[u]);
      CommitKeepsOther(w.db, tx, w.txs[u]);
    }
  }

  lemma AdvanceKeepsInv(w: World, t: Tid, glitch: bool)
    requires Inv(w) && Enabled(w, Step(t, glitch)) && !w.txs[t].phase.Ending?
    ensures Inv(Next(w, Step(t, glitch)))
  {
    var hit, w' := Lookup(w, w.txs[t].req, glitch), Next(w, Step(t, glitch));
    AdvanceKeepsTx(w.db, hit, w.txs[t]);
    forall u | u in w.txs && u != t ensures Compatible(w'.txs[t], w'.txs[u]) && Compatible(w'.txs[u], w'.txs[t]) {
      AdvanceKeepsCompatible(w, t, hit, u);
    }
  }

  lemma NextKeepsInv(w: World, a: Action)
    requires Inv(w) && Enabled(w, a)
    ensures Inv(Next(w, a))
  {
    if a.Step? && w.txs[a.tid].phase.Ending? {
      FinishKeepsInv(w, a.tid);
    } else if a.Step? {
      AdvanceKeepsInv(w, a.tid, a.glitch);
    }
  }

  lemma {:induction false} ExecKeepsInv(w: World, acts: seq<Action>)
    requires Inv(w) && Runnable(w, acts)
    ensures Inv(Exec(w, acts)) && Exec(w, acts).policy == w.policy && Exec(w, acts).cacheOn == w.cacheOn
    decreases |acts|
  {
    if acts != [] {
      ExecKeepsInv(w, acts[..|acts| - 1]);
      NextKeepsInv(Exec(w, acts[..|acts| - 1]), acts[|acts| - 1]);
    }
  }

  lemma ReachableInv(w: World)
    requires Reachable(w)
    ensures Inv(w)
  {
    var init := Init(w.policy, w.cacheOn);
    var acts :| Runnable(init, acts) && Exec(init, acts) == w;
    ExecKeepsInv(init, acts);
  }

  // ---- What it says ----

  /** Committed stock, flushed but uncommitted stock, cached stock and the quantity that a get_stock is
      about to report are never negative. */
  lemma NoOversell(w: World)
    requires Reachable(w)
    ensures forall i | i in w.db.items :: w.db.items[i].stock >= 0
    ensures forall t | t in w.txs && w.txs[t].writes.item.Some? :: w.txs[t].writes.item.value.row.stock >= 0
    ensures forall i | i in w.cache :: w.cache[i] >= 0
    ensures forall t | t in w.txs && w.txs[t].quantity.Some? :: w.txs[t].quantity.value >= 0
  {
    ReachableInv(w);
    forall t | t in w.txs && w.txs[t].writes.item.Some? ensures w.txs[t].writes.item.value.row.stock >= 0 {
      assert TxOk(w.db, w.txs[t]);
    }
    forall t | t in w.txs && w.txs[t].quantity.Some? ensures w.txs[t].quantity.value >= 0 {
      assert TxOk(w.db, w.txs[t]);
    }
  }

  /** No two open transactions have written the same item row, nor the same order row. */
  lemma RowsAreExclusive(w: World, t: Tid, u: Tid)
    requires Reachable(w) && t in w.txs && u in w.txs && t != u
    ensures w.txs[t].writes.item.Some? && w.txs[u].writes.item.Some? ==>
              w.txs[t].writes.item.value.key != w.txs[u].writes.item.value.key
    ensures w.txs[t].writes.order.Some? && w.txs[u].writes.order.Some? ==>
              w.txs[t].writes.order.value.key != w.txs[u].writes.order.value.key
  {
    ReachableInv(w);
    assert Compatible(w.txs[t], w.txs[u]);
    if w.txs[t].writes.item.Some? && w.txs[u].writes.item.Some? {
      WrittenRowIsLocked(w.db, w.txs[t]);
      WrittenRowIsLocked(w.db, w.txs[u]);
    }
  }

  /** The version test of the conditional update is enough: when it matches, the committed row
      still is the row whose status was checked, and the change is an allowed transition. */
  lemma VersionTestIsEnough(w: World, t: Tid)
    requires Reachable(w) && t in w.txs && w.txs[t].phase.Updating? && VersionMatches(w.db, w.txs[t])
    ensures w.db.orders[w.txs[t].req.order] == w.txs[t].order.value
    ensures w.db.orders[w.txs[t].req.order].status.CanTransitionTo(w.txs[t].phase.target)
  {
    ReachableInv(w);
    assert TxOk(w.db, w.txs[t]);
  }

  /** Whatever happens next, every order row stays or makes one allowed transition to the next
      version, with item and quantity unchanged; items and orders never disappear; the ledger only grows. */
  lemma NextMovesOrders(w: World, a: Action)
    requires Inv(w) && Enabled(w, a)
    ensures w.db.items.Keys <= Next(w, a).db.items.Keys
    ensures w.db.orders.Keys <= Next(w, a).db.orders.Keys
    ensures w.db.ledger <= Next(w, a).db.ledger
    ensures forall id | id in w.db.orders :: OrderMoved(w.db.orders[id], Next(w, a).db.orders[id])
    ensures forall id | id in Next(w, a).db.orders && id !in w.db.orders ::
              Next(w, a).db.orders[id].status == Pending && Next(w, a).db.orders[id].version == 1
  {
    if a.Step? && w.txs[a.tid].phase.Ending? {
      CommitWritesOk(w.db, w.txs[a.tid]);
    }
  }

  /** Nothing changes the threshold or the price of an item, and its version only grows. */
  lemma NextKeepsTerms(w: World, a: Action, i: ItemId)
    requires Inv(w) && Enabled(w, a) && i in w.db.items
    ensures i in Next(w, a).db.items
    ensures Next(w, a).db.items[i].threshold == w.db.items[i].threshold
    ensures Next(w, a).db.items[i].price == w.db.items[i].price
    ensures Next(w, a).db.items[i].version >= w.db.items[i].version
  {
    if a.Step? && w.txs[a.tid].phase.Ending? {
      assert TxOk(w.db, w.txs[a.tid]);
      WritesKeepTerms(w.db, w.txs[a.tid]);
    }
  }

  lemma WritesKeepTerms(db: Db, tx: Tx)
    requires DbOk(db) && TxOk(db, tx) && tx.phase.Ending?
    ensures tx.writes.item.Some? && tx.writes.item.value.key in db.items ==>
              var row, row' := db.items[tx.writes.item.value.key], tx.writes.item.value.row;
              row'.threshold == row.threshold && row'.price == row.price && row'.version >= row.version
  {
    match tx.req
    case Confirm(_) =>
    case Cancel(_) =>
    case _ =>
  }

  /** What create_item stored as threshold and price stays, whatever happens. */
  lemma {:induction false} TermsAreFixed(w: World, acts: seq<Action>, i: ItemId)
    requires Inv(w) && Runnable(w, acts) && i in w.db.items
    ensures i in Exec(w, acts).db.items
    ensures Exec(w, acts).db.items[i].threshold == w.db.items[i].threshold
    ensures Exec(w, acts).db.items[i].price == w.db.items[i].price
    decreases |acts|
  {
    if acts != [] {
      TermsAreFixed(w, acts[..|acts| - 1], i);
      ExecKeepsInv(w, acts[..|acts| - 1]);
      NextKeepsTerms(Exec(w, acts[..|acts| - 1]), acts[|acts| - 1], i);
    }
  }

  /** How many steps of a run changed the row of an order that existed before. */
  function Changes(w: World, acts: seq<Action>, id: OrderId): nat
    requires Runnable(w, acts)
    decreases |acts|
  {
    if acts == [] then 0
    else
      var before := Exec(w, acts[..|acts| - 1]).db.orders;
      var after := Exec(w, acts).db.orders;
      Changes(w, acts[..|acts| - 1], id) + (if id in before && id in after && after[id] != before[id] then 1 else 0)
  }

  lemma NextCounts(w: World, a: Action, id: OrderId)
    requires Inv(w) && Enabled(w, a)
    ensures var before, after := w.db.orders, Next(w, a).db.orders;
            if id in before then
              && id in after && after[id].version <= 4
              && after[id].version == before[id].version + (if after[id] != before[id] then 1 else 0)
            else id in after ==> after[id].version == 1
  {
    NextMovesOrders(w, a);
    NextKeepsInv(w, a);
    var w' := Next(w, a);
    if id in w.db.orders {
      assert OrderMoved(w.db.orders[id], w'.db.orders[id]);
      assert LifeCycle(w'.db.orders[id].status, w'.db.orders[id].version);
    }
  }

  /** version - 1 counts the committed transitions of an order, and there are at most three. */
  lemma {:induction false} VersionCountsChanges(policy: Policy, cacheOn: bool, acts: seq<Action>, id: OrderId)
    requires Runnable(Init(policy, cacheOn), acts)
    ensures var w := Exec(Init(policy, cacheOn), acts);
            if id in w.db.orders then w.db.orders[id].version - 1 == Changes(Init(policy, cacheOn), acts, id) <= 3
            else Changes(Init(policy, cacheOn), acts, id) == 0
    decreases |acts|
  {
    if acts != [] {
      var prefix := acts[..|acts| - 1];
      VersionCountsChanges(policy, cacheOn, prefix, id);
      ExecKeepsInv(Init(policy, cacheOn), prefix);
      NextCounts(Exec(Init(policy, cacheOn), prefix), acts[|acts| - 1], id);
    }
  }
}
