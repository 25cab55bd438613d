/** Why the hypotheses are there: from every quiet state one race loses stock when conflicts commit,
    and spoils the cache when they roll back; a read that an adjustment overlaps undoes it, under every
    policy and without a fault; and a stale cache entry is what a read writes. */
module Witness {
  import opened Domain
  import opened Sums
  import opened Spec
  import opened Machine
  import opened Safety
  import opened Serializability
  import opened Ledger
  import Analytics
  import Fulfilment

  /** Some run leads from w to w'. The run is only looked at where LookedAt is mentioned, which keeps
      the proofs below about states. */
  ghost predicate Leads(w: World, w': World) {
    forall k | LookedAt(k) :: exists acts :: Runnable(w, acts) && Exec(w, acts) == w'
  }

  predicate LookedAt(k: nat) {
    k >= 0
  }

  lemma LeadsNowhere(w: World)
    ensures Leads(w, w)
  {
    assert Runnable(w, []) && Exec(w, []) == w;
  }

  lemma LeadsOn(w: World, w': World, a: Action)
    requires Leads(w, w') && Enabled(w', a)
    ensures Leads(w, Next(w', a))
  {
    assert LookedAt(0);
    var acts :| Runnable(w, acts) && Exec(w, acts) == w';
    ExecAppend(w, acts, a);
  }

  lemma LeadsFromInit(w: World)
    requires Leads(Init(w.policy, w.cacheOn), w)
    ensures Reachable(w)
  {
    assert LookedAt(0);
  }

  /** Nobody else holds a lock or has written an order. */
  ghost predicate Unhindered(w: World, t: Tid) {
    t in w.txs && forall u | u in w.txs && u != t :: w.txs[u].lock.Free? && w.txs[u].writes.order.None?
  }

  /** The same tables, cache and history; only the open transactions differ. */
  predicate Same(w: World, w': World) {
    w' == w.(txs := w'.txs)
  }

  /** The other open transactions hold and have written nothing. */
  ghost predicate OthersIdle(w: World, t: Tid) {
    forall u | u in w.txs && u != t :: Idle(w.txs[u])
  }

  lemma BeginTo(w0: World, w: World, t: Tid, req: Request) returns (w': World)
    requires Leads(w0, w) && Enabled(w, Begin(t, req))
    ensures Leads(w0, w') && Same(w, w') && w'.txs == w.txs[t := Opened(req)]
  {
    LeadsOn(w0, w, Begin(t, req));
    w' := Next(w, Begin(t, req));
  }

  /** One statement, with or without a glitch. */
  lemma GlitchTo(w0: World, w: World, t: Tid, tx': Tx, glitch: bool) returns (w': World)
    requires Leads(w0, w) && Unhindered(w, t) && !w.txs[t].phase.Ending?
    requires tx' == Advance(w.db, Lookup(w, w.txs[t].req, glitch), w.txs[t])
    ensures Leads(w0, w') && Same(w, w'.(cache := w.cache, serial := w.serial))
    ensures w'.txs == w.txs[t := tx'] && w'.cache == CacheAfter(w, w.txs[t], glitch)
    ensures w'.serial == w.serial + Linearize(t, w.txs[t], tx')
  {
    LeadsOn(w0, w, Step(t, glitch));
    w' := Next(w, Step(t, glitch));
  }

  lemma StepTo(w0: World, w: World, t: Tid, tx': Tx) returns (w': World)
    requires Leads(w0, w) && Unhindered(w, t) && !w.txs[t].phase.Ending?
    requires tx' == Advance(w.db, Lookup(w, w.txs[t].req, false), w.txs[t])
    ensures Leads(w0, w') && Same(w, w'.(cache := w.cache, serial := w.serial))
    ensures w'.txs == w.txs[t := tx'] && w'.cache == CacheAfter(w, w.txs[t], false)
    ensures w'.serial == w.serial + Linearize(t, w.txs[t], tx')
  {
    w' := GlitchTo(w0, w, t, tx', false);
  }

  lemma EndTo(w0: World, w: World, t: Tid) returns (w': World)
    requires Leads(w0, w) && t in w.txs && w.txs[t].phase.Ending?
    ensures Leads(w0, w') && Same(w, w'.(db := w.db, serial := w.serial, ended := w.ended)) && w'.txs == w.txs - {t}
    ensures w'.db == if w.policy.Commits(w.txs[t].phase.outcome) then Apply(w.db, w.txs[t].writes) else w.db
    ensures w'.serial == w.serial + LinearizeEnd(t, w.txs[t])
    ensures Replied(w, w', w.txs[t].req, w.txs[t].phase.outcome)
  {
    LeadsOn(w0, w, Step(t, false));
    w' := Next(w, Step(t, false));
  }

  /** One more request has had its reply. */
  predicate Replied(w: World, w': World, req: Request, outcome: Outcome) {
    && |w'.ended| == |w.ended| + 1 && w.ended <= w'.ended
    && w'.ended[|w.ended|].req == req && w'.ended[|w.ended|].outcome == outcome
  }

  /** Transaction t, a confirm, has read the pending order o and comes to its lock. */
  function Confirming(id: OrderId, o: Order): Tx {
    Opened(Confirm(id)).(phase := Locking, order := Some(o))
  }

  lemma ConfirmReads(w0: World, w: World, t: Tid, id: OrderId) returns (w': World)
    requires Leads(w0, w) && t !in w.txs && OthersIdle(w, t)
    requires id in w.db.orders && w.db.orders[id].status == Pending
    ensures Leads(w0, w') && Same(w, w') && w'.txs == w.txs[t := Confirming(id, w.db.orders[id])]
  {
    w' := BeginTo(w0, w, t, Confirm(id));
    w' := StepTo(w0, w', t, Confirming(id, w.db.orders[id]));
    assert w.serial + [] == w.serial;
  }

  /** A cancel that has read the pending order o. */
  function Cancelling(id: OrderId, o: Order): Tx {
    Opened(Cancel(id)).(phase := Updating(Cancelled), order := Some(o))
  }

  /** Another transaction comes to read the order ... */
  lemma CancelReads(w0: World, w: World, u: Tid, id: OrderId) returns (w': World)
    requires Leads(w0, w) && u !in w.txs && OthersIdle(w, u)
    requires id in w.db.orders && w.db.orders[id].status == Pending
    ensures Leads(w0, w') && Same(w, w') && w'.txs == w.txs[u := Cancelling(id, w.db.orders[id])]
  {
    w' := BeginTo(w0, w, u, Cancel(id));
    w' := StepTo(w0, w', u, Cancelling(id, w.db.orders[id]));
  }

  /** ... and cancels it meanwhile. */
  lemma CancelOvertakes(w0: World, w: World, u: Tid, id: OrderId) returns (w': World)
    requires Leads(w0, w) && u !in w.txs && OthersIdle(w, u)
    requires id in w.db.orders && w.db.orders[id].status == Pending
    ensures Leads(w0, w') && Same(w, w'.(db := w.db, serial := w.serial, ended := w.ended)) && w'.txs == w.txs
    ensures w'.db == w.db.(orders := w.db.orders[id := NewStatus(w.db.orders[id], Cancelled)])
    ensures w'.serial == w.serial + [Entry(u, Cancel(id), Reply(Success, None))]
  {
    var o := w.db.orders[id];
    w' := CancelReads(w0, w, u, id);
    w' := StepTo(w0, w', u, End(Cancelling(id, o), Success)
                            .(writes := NOTHING.(order := Some(Row(id, NewStatus(o, Cancelled))))));
    w' := EndTo(w0, w', u);
    assert w.serial + [] == w.serial;
  }

  /** The confirm locks the item and deducts ... */
  lemma ConfirmDeducts(w0: World, w: World, t: Tid, id: OrderId, o: Order) returns (w': World)
    requires Leads(w0, w) && t in w.txs && OthersIdle(w, t) && w.txs[t] == Confirming(id, o)
    requires o.item in w.db.items && w.db.items[o.item].stock >= o.quantity
    ensures Leads(w0, w') && Same(w, w') && w'.txs == w.txs[t := Deducting(id, o, w.db.items[o.item])]
  {
    var locked := Confirming(id, o).(phase := Writing(w.db.items[o.item]), lock := ForUpdate(o.item));
    w' := StepTo(w0, w, t, locked);
    w' := StepTo(w0, w', t, Deducting(id, o, w.db.items[o.item]));
    assert w.serial + [] == w.serial;
  }

  /** A confirm that has deducted from this row and comes to its set_stock. */
  function Deducting(id: OrderId, o: Order, row: Item): Tx {
    Confirming(id, o).(phase := Caching, lock := ForUpdate(o.item),
                       writes := Moved(o.item, row, Some(id), Deduction, -o.quantity))
  }

  /** ... publishes the deducted stock, and finds that the order has changed. */
  lemma ConfirmConflicts(w0: World, w: World, t: Tid, id: OrderId, tx: Tx) returns (w': World)
    requires Leads(w0, w) && w.txs == map[t := tx] && tx.req == Confirm(id) && tx.phase == Caching
    requires tx.order.Some? && id in w.db.orders && w.db.orders[id].version != tx.order.value.version
    requires tx.writes.item.Some?
    ensures Leads(w0, w') && Same(w, w'.(db := w.db, cache := w.cache, ended := w.ended)) && w'.txs == map[]
    ensures w'.db == (if w.policy.Commits(Conflict) then Apply(w.db, tx.writes) else w.db)
    ensures w'.cache ==
            if w.cacheOn then w.cache[tx.writes.item.value.key := tx.writes.item.value.row.stock] else w.cache
    ensures Replied(w, w', Confirm(id), Conflict)
  {
    w' := StepTo(w0, w, t, tx.(phase := Updating(Confirmed)));
    w' := StepTo(w0, w', t, End(tx, Conflict));
    w' := EndTo(w0, w', t);
    assert w.serial + [] == w.serial;
  }

  /** From every quiet state with a pending order that can be filled: if a ConflictError commits, as
      under the order router, a confirm that races with a cancel loses the stock of an order that is
      cancelled for good; if it rolls back, the cache is left with a stock that was never committed.
      The serial order knows the cancel only. */
  lemma RaceWithCancel(w0: World, w: World, t: Tid, u: Tid, id: OrderId) returns (w': World)
    requires Leads(w0, w) && DbOk(w.db) && w.txs == map[] && t != u
    requires id in w.db.orders && w.db.orders[id].status == Pending
    requires w.db.items[w.db.orders[id].item].stock >= w.db.orders[id].quantity
    ensures Leads(w0, w') && w'.txs == map[] && w'.policy == w.policy && w'.cacheOn == w.cacheOn
    ensures var o := w.db.orders[id]; var stock := w.db.items[o.item].stock;
            && w'.db.orders == w.db.orders[id := NewStatus(o, Cancelled)]
            && o.item in w'.db.items
            && (if w.policy.Commits(Conflict) then
                  && w'.db.items[o.item].stock == stock - o.quantity < stock
                  && w'.db.ledger ==
                       w.db.ledger + [Movement(o.item, Some(id), Deduction, -o.quantity, stock, stock - o.quantity)]
                else w'.db.items == w.db.items && w'.db.ledger == w.db.ledger)
            && (w.cacheOn ==> o.item in w'.cache && w'.cache[o.item] == stock - o.quantity)
    ensures w'.serial == w.serial + [Entry(u, Cancel(id), Reply(Success, None))]
    ensures Serial(w) && w.policy.Commits(Conflict) ==> !Serial(w')
  {
    var o := w.db.orders[id];
    var w1 := ConfirmReads(w0, w, t, id);
    var w2 := CancelOvertakes(w0, w1, u, id);
    var w3 := ConfirmDeducts(w0, w2, t, id, o);
    w' := ConfirmConflicts(w0, w3, t, id, w3.txs[t]);
    LedgerOutgrows(w, w', Entry(u, Cancel(id), Reply(Success, None)));
  }

  /** The serial order has one more request, of an order that holds no stock, and the ledger one more
      movement: they do not match. */
  lemma LedgerOutgrows(w: World, w': World, e: Entry)
    requires w'.serial == w.serial + [e] && w'.policy == w.policy && e.req.Cancel?
    requires e.req.order in w.db.orders && w.db.orders[e.req.order].status == Pending
    ensures Serial(w) && |w'.db.ledger| != |w.db.ledger| ==> !Serial(w')
  {
    ReplayAppend(w.policy, w.serial, e);
  }

  // ---- Reads ----

  function Holding(i: ItemId, hit: int): Tx {
    Opened(GetStock(i)).(phase := Fetching(Some(hit)))
  }

  lemma ReadHits(w0: World, w: World, t: Tid, i: ItemId) returns (w': World)
    requires Leads(w0, w) && w.txs == map[] && w.cacheOn && i in w.cache
    ensures Leads(w0, w') && Same(w, w') && w'.txs == map[t := Holding(i, w.cache[i])]
  {
    w' := BeginTo(w0, w, t, GetStock(i));
    w' := StepTo(w0, w', t, Holding(i, w.cache[i]));
    assert w.serial + [] == w.serial;
  }

  /** A get_stock that holds a hit goes on. If the row has the same quantity, it leaves the row alone ... */
  lemma ReadMatches(w0: World, w: World, t: Tid, i: ItemId, hit: int) returns (w': World)
    requires Leads(w0, w) && w.txs == map[t := Holding(i, hit)] && i in w.db.items && w.db.items[i].stock == hit
    ensures Leads(w0, w') && Same(w, w'.(serial := w.serial, ended := w.ended)) && w'.txs == map[]
    ensures w'.serial == w.serial + [Entry(t, GetStock(i), Reply(Success, Some(hit)))]
  {
    w' := StepTo(w0, w, t, End(Holding(i, hit).(quantity := Some(hit)), Success));
    w' := EndTo(w0, w', t);
    assert w'.serial + [] == w'.serial;
  }

  /** ... otherwise it overwrites it. */
  lemma ReadOverwrites(w0: World, w: World, t: Tid, i: ItemId, hit: int) returns (w': World)
    requires Leads(w0, w) && w.txs == map[t := Holding(i, hit)] && i in w.db.items && w.db.items[i].stock != hit
    ensures Leads(w0, w') && Same(w, w'.(db := w.db, serial := w.serial, ended := w.ended)) && w'.txs == map[]
    ensures w'.db == w.db.(items := w.db.items[i := w.db.items[i].(stock := hit)])
    ensures w'.serial == w.serial + [Entry(t, GetStock(i), Reply(Success, Some(hit)))]
  {
    var row, tx := w.db.items[i], Holding(i, hit).(quantity := Some(hit));
    w' := StepTo(w0, w, t, tx.(phase := WritingBack(hit)));
    w' := StepTo(w0, w', t, End(tx.(lock := NoKeyUpdate(i),
                                   writes := NOTHING.(item := Some(Row(i, row.(stock := hit))))), Success));
    w' := EndTo(w0, w', t);
    assert w.serial + [] == w.serial;
  }

  /** In both cases the hit becomes the committed stock. */
  lemma ReadFetches(w0: World, w: World, t: Tid, i: ItemId, hit: int) returns (w': World)
    requires Leads(w0, w) && w.txs == map[t := Holding(i, hit)] && i in w.db.items
    ensures Leads(w0, w') && Same(w, w'.(db := w.db, serial := w.serial, ended := w.ended)) && w'.txs == map[]
    ensures w'.db == w.db.(items := w.db.items[i := w.db.items[i].(stock := hit)])
    ensures w'.serial == w.serial + [Entry(t, GetStock(i), Reply(Success, Some(hit)))]
  {
    if hit == w.db.items[i].stock {
      assert w.db.items[i := w.db.items[i]] == w.db.items;
      w' := ReadMatches(w0, w, t, i, hit);
    } else {
      w' := ReadOverwrites(w0, w, t, i, hit);
    }
  }

  /** From every quiet state, one get_stock that hits the cache and that nobody interrupts makes the
      cached quantity the committed stock: it leaves the tables alone exactly when the two agree. */
  lemma ReadWritesBack(w0: World, w: World, t: Tid, i: ItemId) returns (w': World)
    requires Leads(w0, w) && w.txs == map[] && w.cacheOn && i in w.cache && i in w.db.items
    ensures Leads(w0, w') && w'.txs == map[] && w'.policy == w.policy && w'.cacheOn == w.cacheOn
    ensures i in w'.db.items && w'.db.items[i].stock == w.cache[i]
    ensures w'.db.ledger == w.db.ledger && w'.db.orders == w.db.orders
    ensures w'.db == w.db <==> w.cache[i] == w.db.items[i].stock
  {
    w' := ReadHits(w0, w, t, i);
    w' := ReadFetches(w0, w', t, i, w.cache[i]);
    if w.cache[i] == w.db.items[i].stock {
      assert w.db.items[i := w.db.items[i]] == w.db.items;
    }
  }

  /** An adjustment locks its row, whatever reads are open ... */
  lemma AdjustLocks(w0: World, w: World, u: Tid, i: ItemId, delta: int) returns (w': World)
    requires Leads(w0, w) && u !in w.txs && OthersIdle(w, u)
    requires i in w.db.items && w.db.items[i].stock + delta >= 0
    ensures Leads(w0, w') && Same(w, w')
    ensures w'.txs == w.txs[u := Opened(AdjustStock(i, delta)).(phase := Writing(w.db.items[i]), lock := ForUpdate(i))]
  {
    var tx := Opened(AdjustStock(i, delta));
    w' := BeginTo(w0, w, u, AdjustStock(i, delta));
    w' := StepTo(w0, w', u, tx.(phase := Locking));
    w' := StepTo(w0, w', u, tx.(phase := Writing(w.db.items[i]), lock := ForUpdate(i)));
    assert w.serial + [] == w.serial;
  }

  /** ... flushes the new stock and its movement ... */
  lemma AdjustWrites(w0: World, w: World, u: Tid, i: ItemId, delta: int) returns (w': World)
    requires Leads(w0, w) && u !in w.txs && OthersIdle(w, u)
    requires i in w.db.items && w.db.items[i].stock + delta >= 0
    ensures Leads(w0, w') && Same(w, w')
    ensures w'.txs == w.txs[u := Opened(AdjustStock(i, delta))
                                 .(phase := Caching, lock := ForUpdate(i),
                                   writes := Moved(i, w.db.items[i], None, Adjustment, delta))]
  {
    w' := AdjustLocks(w0, w, u, i, delta);
    w' := StepTo(w0, w', u, w'.txs[u].(phase := Caching, writes := Moved(i, w.db.items[i], None, Adjustment, delta)));
    assert w.serial + [] == w.serial;
  }

  /** ... publishes the new stock ... */
  lemma AdjustPublishes(w0: World, w: World, u: Tid, i: ItemId, delta: int) returns (w': World)
    requires Leads(w0, w) && u !in w.txs && OthersIdle(w, u)
    requires w.cacheOn && i in w.db.items && w.db.items[i].stock + delta >= 0
    ensures Leads(w0, w') && Same(w, w'.(cache := w.cache))
    ensures w'.cache == w.cache[i := w.db.items[i].stock + delta]
    ensures var tx := Opened(AdjustStock(i, delta)).(lock := ForUpdate(i));
            w'.txs == w.txs[u := End(tx.(writes := Moved(i, w.db.items[i], None, Adjustment, delta)), Success)]
  {
    w' := AdjustWrites(w0, w, u, i, delta);
    w' := StepTo(w0, w', u, End(w'.txs[u], Success));
    assert w.serial + [] == w.serial;
  }

  /** ... and commits. */
  lemma AdjustCommits(w0: World, w: World, u: Tid, i: ItemId, delta: int) returns (w': World)
    requires Leads(w0, w) && u !in w.txs && OthersIdle(w, u)
    requires w.cacheOn && i in w.db.items && w.db.items[i].stock + delta >= 0
    ensures Leads(w0, w') && w'.txs == w.txs
    ensures Same(w, w'.(db := w.db, cache := w.cache, serial := w.serial, ended := w.ended))
    ensures w'.db == Apply(w.db, Moved(i, w.db.items[i], None, Adjustment, delta))
    ensures w'.cache == w.cache[i := w.db.items[i].stock + delta]
    ensures w'.serial == w.serial + [Entry(u, AdjustStock(i, delta), Reply(Success, None))]
  {
    w' := AdjustPublishes(w0, w, u, i, delta);
    w' := EndTo(w0, w', u);
  }

  /** From every quiet state in which cache and table agree, under every policy, without a fault and
      without a conflict: an adjustment that a get_stock overlaps is undone in the table, while the
      ledger and the cache keep it. The serial order has both requests, and does not lead there. */
  lemma OverlappingReadUndoes(w0: World, w: World, t: Tid, u: Tid, i: ItemId, delta: int) returns (w': World)
    requires Leads(w0, w) && w.txs == map[] && t != u && w.cacheOn && i in w.cache && i in w.db.items
    requires w.cache[i] == w.db.items[i].stock && delta != 0 && w.db.items[i].stock + delta >= 0
    ensures Leads(w0, w') && w'.txs == map[] && w'.policy == w.policy && w'.cacheOn == w.cacheOn
    ensures var stock := w.db.items[i].stock;
            && i in w'.db.items && w'.db.items[i].stock == stock
            && w'.db.ledger == w.db.ledger + [Movement(i, None, Adjustment, delta, stock, stock + delta)]
            && w'.db.orders == w.db.orders
            && i in w'.cache && w'.cache[i] == stock + delta
    ensures Serial(w) ==> !Serial(w')
  {
    var stock := w.db.items[i].stock;
    var w1 := ReadHits(w0, w, t, i);
    var w2 := AdjustCommits(w0, w1, u, i, delta);
    w' := ReadFetches(w0, w2, t, i, stock);
    StockFallsBehind(w, w', Entry(u, AdjustStock(i, delta), Reply(Success, None)),
                     Entry(t, GetStock(i), Reply(Success, Some(stock))));
  }

  /** The serial order has an adjustment and a read more, and the stock is what it was: they do not
      match. */
  lemma StockFallsBehind(w: World, w': World, adjust: Entry, read: Entry)
    requires w'.serial == w.serial + [adjust] + [read] && w'.policy == w.policy
    requires adjust.req.AdjustStock? && read.req == GetStock(adjust.req.item) && adjust.req.delta != 0
    requires var i := adjust.req.item;
             i in w.db.items && i in w'.db.items && w.db.items[i].stock + adjust.req.delta >= 0
    ensures Serial(w) && w'.db.items[adjust.req.item].stock == w.db.items[adjust.req.item].stock ==> !Serial(w')
  {
    ReplayAppend(w.policy, w.serial, adjust);
    ReplayAppend(w.policy, w.serial + [adjust], read);
    if Serial(w) {
      var i := adjust.req.item;
      assert Replay(w.policy, w.serial + [adjust]).items[i].stock == w.db.items[i].stock + adjust.req.delta;
    }
  }

  /** From every quiet state, under every policy: a process that dies between its set_stock and its
      commit leaves a quantity in the cache that the next get_stock makes the committed stock,
      although nothing was committed. */
  lemma CrashMisleadsRead(w0: World, w: World, t: Tid, i: ItemId, delta: int) returns (w': World)
    requires Leads(w0, w) && w.txs == map[] && w.cacheOn && i in w.db.items
    requires w.db.items[i].stock + delta >= 0
    ensures Leads(w0, w') && w'.txs == map[] && w'.policy == w.policy && w'.cacheOn == w.cacheOn
    ensures i in w'.db.items && w'.db.items[i].stock == w.db.items[i].stock + delta
    ensures w'.db.ledger == w.db.ledger && w'.db.orders == w.db.orders
  {
    var w1 := AdjustPublishes(w0, w, t, i, delta);
    LeadsOn(w0, w1, Abort(t));
    var w2 := Next(w1, Abort(t));
    assert w2.txs == map[];
    w' := ReadWritesBack(w0, w2, t, i);
  }

  /** From every quiet state in which cache and table agree, under every policy: if the set_stock of an
      adjustment is lost, the next get_stock undoes the adjustment in the table, while the ledger keeps
      it. */
  lemma LostSetMisleadsRead(w0: World, w: World, t: Tid, i: ItemId, delta: int) returns (w': World)
    requires Leads(w0, w) && w.txs == map[] && w.cacheOn && i in w.cache && i in w.db.items
    requires w.cache[i] == w.db.items[i].stock && delta != 0 && w.db.items[i].stock + delta >= 0
    ensures Leads(w0, w') && w'.txs == map[] && w'.policy == w.policy && w'.cacheOn == w.cacheOn
    ensures var stock := w.db.items[i].stock;
            && i in w'.db.items && w'.db.items[i].stock == stock && w'.db.orders == w.db.orders
            && w'.db.ledger == w.db.ledger + [Movement(i, None, Adjustment, delta, stock, stock + delta)]
  {
    var w1 := AdjustWrites(w0, w, t, i, delta);
    var w2 := GlitchTo(w0, w1, t, End(w1.txs[t], Success), true);
    var w3 := EndTo(w0, w2, t);
    w' := ReadWritesBack(w0, w3, t, i);
  }

  // ---- Confirming one order twice ----

  /** Alone with its item, a confirm that has deducted succeeds if its order is still what it read. */
  lemma ConfirmSucceeds(w0: World, w: World, t: Tid, id: OrderId, o: Order, row: Item) returns (w': World)
    requires Leads(w0, w) && t in w.txs && OthersIdle(w, t) && w.txs[t] == Deducting(id, o, row)
    requires id in w.db.orders && w.db.orders[id] == o
    ensures Leads(w0, w') && w'.txs == w.txs - {t} && w'.policy == w.policy && w'.cacheOn == w.cacheOn
    ensures w'.db == Apply(w.db, w.txs[t].writes.(order := Some(Row(id, NewStatus(o, Confirmed)))))
    ensures Replied(w, w', Confirm(id), Success)
  {
    var tx := w.txs[t];
    w' := StepTo(w0, w, t, tx.(phase := Updating(Confirmed)));
    w' := StepTo(w0, w', t, End(tx.(writes := tx.writes.(order := Some(Row(id, NewStatus(o, Confirmed))))), Success));
    w' := EndTo(w0, w', t);
  }

  /** A confirm for which the stock does not suffice is refused, and the order rejected if that commits. */
  lemma ConfirmRefused(w0: World, w: World, t: Tid, id: OrderId) returns (w': World)
    requires Leads(w0, w) && w.txs == map[] && id in w.db.orders && w.db.orders[id].status == Pending
    requires w.db.orders[id].item in w.db.items
    requires w.db.items[w.db.orders[id].item].stock < w.db.orders[id].quantity
    ensures Leads(w0, w') && w'.txs == map[] && w'.policy == w.policy && w'.cacheOn == w.cacheOn
    ensures var o := w.db.orders[id];
            w'.db.orders == if w.policy.Commits(InsufficientStock)
                            then w.db.orders[id := Order(o.item, o.quantity, Rejected, o.version + 1)] else w.db.orders
    ensures w'.db.items == w.db.items && w'.db.ledger == w.db.ledger
    ensures Replied(w, w', Confirm(id), InsufficientStock)
  {
    var o := w.db.orders[id];
    var refused := Confirming(id, o).(phase := Updating(Rejected), lock := ForUpdate(o.item));
    w' := ConfirmReads(w0, w, t, id);
    w' := StepTo(w0, w', t, refused);
    w' := StepTo(w0, w', t, End(refused.(writes := NOTHING.(order := Some(Row(id, NewStatus(o, Rejected))))),
                                InsufficientStock));
    w' := EndTo(w0, w', t);
  }

  /** A second confirm overtakes the first one. */
  lemma SecondConfirmOvertakes(w0: World, w: World, t: Tid, u: Tid, a: OrderId, o: Order) returns (w': World)
    requires Leads(w0, w) && t != u && w.txs == map[t := Confirming(a, o)] && a in w.db.orders && w.db.orders[a] == o
    requires o.status == Pending && o.item in w.db.items && w.db.items[o.item].stock >= o.quantity
    ensures Leads(w0, w') && w'.txs == w.txs && w'.policy == w.policy && w'.cacheOn == w.cacheOn
    ensures w'.db.orders == w.db.orders[a := NewStatus(o, Confirmed)]
    ensures o.item in w'.db.items && w'.db.items[o.item].stock == w.db.items[o.item].stock - o.quantity
    ensures Replied(w, w', Confirm(a), Success)
  {
    w' := ConfirmReads(w0, w, u, a);
    w' := ConfirmDeducts(w0, w', u, a, o);
    w' := ConfirmSucceeds(w0, w', u, a, o, w.db.items[o.item]);
  }

  /** Two confirms of order a read it PENDING; one succeeds, and the other conflicts behind its
      deduction, which is committed. */
  lemma TwoConfirms(w0: World, w: World, t: Tid, u: Tid, a: OrderId, i: ItemId) returns (w': World)
    requires Leads(w0, w) && w.txs == map[] && t != u && w.policy.Commits(Conflict)
    requires i in w.db.items && w.db.items[i].stock == 2
    requires a in w.db.orders && w.db.orders[a] == Order(i, 1, Pending, 1)
    ensures Leads(w0, w') && w'.txs == map[] && w'.policy == w.policy && w'.cacheOn == w.cacheOn
    ensures w'.db.orders == w.db.orders[a := Order(i, 1, Confirmed, 2)]
    ensures i in w'.db.items && w'.db.items[i].stock == 0
    ensures |w'.ended| == |w.ended| + 2 && w.ended <= w'.ended
    ensures w'.ended[|w.ended|].req == Confirm(a) && w'.ended[|w.ended|].outcome == Success
    ensures w'.ended[|w.ended| + 1].req == Confirm(a) && w'.ended[|w.ended| + 1].outcome == Conflict
  {
    var o := w.db.orders[a];
    var w1 := ConfirmReads(w0, w, t, a);
    var w2 := SecondConfirmOvertakes(w0, w1, t, u, a, o);
    var w3 := ConfirmDeducts(w0, w2, t, a, o);
    w' := ConfirmConflicts(w0, w3, t, a, w3.txs[t]);
  }

  /** From every quiet state with two pending unit orders and two units in stock, under every policy
      that commits a ConflictError: if one order is confirmed twice at once, a unit is wasted, and the
      other order is refused. */
  lemma SecondConfirmWastesUnit(w0: World, w: World, t: Tid, u: Tid, a: OrderId, b: OrderId, i: ItemId)
    returns (w': World)
    requires Leads(w0, w) && w.txs == map[] && t != u && a != b && w.policy.Commits(Conflict)
    requires Fulfilment.UnitOrders(w.db, {a, b}, i) && w.db.items[i].stock == 2
    ensures Leads(w0, w') && w'.txs == map[] && w'.policy == w.policy && w'.cacheOn == w.cacheOn
    ensures Fulfilment.AllAnswered(w', |w.ended|, {a, b})
    ensures forall k | |w.ended| <= k < |w'.ended| :: w'.ended[k].req in {Confirm(a), Confirm(b)}
    ensures i in w'.db.items && w'.db.items[i].stock == 0
    ensures |Fulfilment.ConfirmedAmong(w'.db, {a, b})| == 1
  {
    assert a in {a, b} && b in {a, b};
    var w1 := TwoConfirms(w0, w, t, u, a, i);
    w' := ConfirmRefused(w0, w1, t, b);
    assert Fulfilment.ConfirmedAmong(w'.db, {a, b}) == {a};
    assert w'.ended[|w.ended|].req == Confirm(a) && w'.ended[|w1.ended|].req == Confirm(b);
  }

  // ---- Concrete runs ----

  /** One item with this much in stock. */
  lemma ItemCreated(policy: Policy, cacheOn: bool, stock: nat) returns (w: World)
    ensures var init := Init(policy, cacheOn);
            Leads(init, w) && w.txs == map[] && w.policy == policy && w.cacheOn == cacheOn
    ensures w.db == Db(map[0 := Item(stock, 1, 0, 1)], map[], [Movement(0, None, Adjustment, stock, 0, stock)])
    ensures cacheOn ==> w.cache == map[0 := stock]
    ensures Serial(w)
  {
    var init := Init(policy, cacheOn);
    LeadsNowhere(init);
    var req := CreateItem(0, stock, 0, 1);
    w := BeginTo(init, init, 0, req);
    var tx := Opened(req).(phase := Caching, lock := ForUpdate(0), writes := Creation(0, stock, 0, 1));
    w := StepTo(init, w, 0, tx);
    w := StepTo(init, w, 0, End(tx, Success));
    w := EndTo(init, w, 0);
    ReplayAppend(policy, [], Entry(0, req, Reply(Success, None)));
    assert w.serial == [] + [Entry(0, req, Reply(Success, None))];
  }

  /** One more pending order. */
  lemma PlaceTo(w0: World, w: World, id: OrderId, i: ItemId, quantity: nat) returns (w': World)
    requires Leads(w0, w) && w.txs == map[] && i in w.db.items && id !in w.db.orders && quantity > 0
    ensures Leads(w0, w') && Same(w, w'.(db := w.db, serial := w.serial, ended := w.ended)) && w'.txs == map[]
    ensures w'.db == w.db.(orders := w.db.orders[id := Order(i, quantity, Pending, 1)])
    ensures w'.serial == w.serial + [Entry(0, PlaceOrder(id, i, quantity), Reply(Success, None))]
  {
    var tx := Opened(PlaceOrder(id, i, quantity)).(phase := Inserting);
    var placed := NOTHING.(order := Some(Row(id, Order(i, quantity, Pending, 1))));
    w' := BeginTo(w0, w, 0, tx.req);
    w' := StepTo(w0, w', 0, tx);
    w' := StepTo(w0, w', 0, End(tx.(lock := KeyShare(i), writes := placed), Success));
    w' := EndTo(w0, w', 0);
    assert w.serial + [] == w.serial;
  }

  /** One item with 5 in stock, and one pending order for 2 of them. */
  lemma OrderPlaced(policy: Policy, cacheOn: bool) returns (w: World)
    ensures var init := Init(policy, cacheOn);
            Leads(init, w) && w.txs == map[] && w.policy == policy && w.cacheOn == cacheOn
    ensures w.db == Db(map[0 := Item(5, 1, 0, 1)], map[0 := Order(0, 2, Pending, 1)],
                       [Movement(0, None, Adjustment, 5, 0, 5)])
    ensures Serial(w)
  {
    var w1 := ItemCreated(policy, cacheOn, 5);
    w := PlaceTo(Init(policy, cacheOn), w1, 0, 0, 2);
    ReplayAppend(policy, w1.serial, Entry(0, PlaceOrder(0, 0, 2), Reply(Success, None)));
  }

  /** The tables after the race: 5 units came in, no order holds any, 3 are left. */
  lemma LostStock(before: Db, db: Db)
    requires before.ledger == [Movement(0, None, Adjustment, 5, 0, 5)]
    requires db.ledger == before.ledger + [Movement(0, Some(0), Deduction, -2, 5, 3)]
    requires db.orders == map[0 := Order(0, 2, Cancelled, 2)]
    ensures SumRows(db.orders, Held(0)) == 0 && SumLog(db.ledger, Adjusted(0)) == 5
    ensures History(db, 0) != Expected(db.orders[0])
  {
    assert db.orders == map[][0 := Order(0, 2, Cancelled, 2)];
    SumPut(map[], Held(0), 0, Order(0, 2, Cancelled, 2));
    SumAppend(before.ledger, Adjusted(0), Movement(0, Some(0), Deduction, -2, 5, 3));
    SumAppend([], Adjusted(0), Movement(0, None, Adjustment, 5, 0, 5));
    assert [] + before.ledger == before.ledger;
    HistoryAppend(before, db, Movement(0, Some(0), Deduction, -2, 5, 3), 0);
  }

  lemma RouterRaces() returns (before: Db, w: World)
    ensures w.policy == ROUTER_POLICY && Leads(Init(ROUTER_POLICY, false), w) && !w.cacheOn && w.txs == map[]
    ensures !Serial(w)
    ensures before.ledger == [Movement(0, None, Adjustment, 5, 0, 5)]
    ensures w.db.ledger == before.ledger + [Movement(0, Some(0), Deduction, -2, 5, 3)]
    ensures w.db.orders == map[0 := Order(0, 2, Cancelled, 2)]
    ensures 0 in w.db.items && w.db.items[0].stock == 3
  {
    var placed := OrderPlaced(ROUTER_POLICY, false);
    w := RaceWithCancel(Init(ROUTER_POLICY, false), placed, 1, 2, 0);
    before := placed.db;
  }

  /** Under the order router, conservation without the stray term, the history of an order and
      serializability fail. */
  lemma RouterLosesStock() returns (w: World)
    ensures w.policy == ROUTER_POLICY && Reachable(w) && w.txs == map[]
    ensures StockOf(w.db, 0) == 3 && SumRows(w.db.orders, Held(0)) == 0 && SumLog(w.db.ledger, Adjusted(0)) == 5
    ensures 0 in w.db.orders && w.db.orders[0] == Order(0, 2, Cancelled, 2)
    ensures History(w.db, 0) != Expected(w.db.orders[0])
    ensures !Serial(w)
  {
    var before;
    before, w := RouterRaces();
    LostStock(before, w.db);
    LeadsFromInit(w);
  }

  /** Under the order router: two unit orders, two units, every order answered, and one confirmed. */
  lemma RouterWastesUnit() returns (w: World)
    ensures w.policy == ROUTER_POLICY && Reachable(w) && w.txs == map[]
    ensures |Fulfilment.ConfirmedAmong(w.db, {0, 1})| == 1 && StockOf(w.db, 0) == 0
  {
    var init := Init(ROUTER_POLICY, false);
    var w1 := ItemCreated(ROUTER_POLICY, false, 2);
    var w2 := PlaceTo(init, w1, 0, 0, 1);
    var w3 := PlaceTo(init, w2, 1, 0, 1);
    w := SecondConfirmWastesUnit(init, w3, 1, 2, 0, 1, 0);
    LeadsFromInit(w);
  }

  /** Under every policy, the order router's included, one get_stock loses what an adjustment brings in
      meanwhile: 5 and 2 units came in, no order took any, and the table says 5. */
  lemma ReadLosesStock(policy: Policy) returns (w: World)
    ensures w.policy == policy && w.cacheOn && Reachable(w) && w.txs == map[]
    ensures StockOf(w.db, 0) == 5 && w.db.orders == map[] && SumLog(w.db.ledger, Adjusted(0)) == 7
    ensures !Serial(w)
  {
    var w1 := ItemCreated(policy, true, 5);
    w := OverlappingReadUndoes(Init(policy, true), w1, 1, 2, 0, 2);
    SumAppend(w1.db.ledger, Adjusted(0), Movement(0, None, Adjustment, 2, 5, 7));
    SumAppend([], Adjusted(0), Movement(0, None, Adjustment, 5, 0, 5));
    assert [] + w1.db.ledger == w1.db.ledger;
    LeadsFromInit(w);
  }

  /** With a caller that lets ConflictError roll back, a read after the conflict loses stock: the table
      says 3 where every committed movement says 5. */
  lemma RollbackMisleadsRead() returns (w: World)
    ensures w.policy == RAISING_POLICY && Reachable(w) && w.txs == map[]
    ensures w.db.ledger == [Movement(0, None, Adjustment, 5, 0, 5)] && StockOf(w.db, 0) == 3
  {
    var init := Init(RAISING_POLICY, true);
    var w1 := OrderPlaced(RAISING_POLICY, true);
    var w2 := RaceWithCancel(init, w1, 1, 2, 0);
    w := ReadWritesBack(init, w2, 3, 0);
    LeadsFromInit(w);
  }

  lemma RefundOfPending(db: Db)
    requires db.items == map[0 := Item(5, 1, 0, 1)] && db.orders == map[0 := Order(0, 2, Cancelled, 2)]
    ensures Analytics.GetOrderAnalytics(db).refundValue == 2
  {
    var prices := Analytics.Prices(db.items);
    assert prices == map[0 := 1];
    var none: map<OrderId, Order> := map[];
    assert db.orders == none[0 := Order(0, 2, Cancelled, 2)];
    SumPut(none, Analytics.WorthWithStatus(prices, Cancelled), 0, Order(0, 2, Cancelled, 2));
  }

  /** Under every policy, an order cancelled from PENDING counts towards refund_value although nothing
      was deducted or restored. */
  lemma PendingCancelIsRefunded(policy: Policy) returns (w: World)
    ensures w.policy == policy && Reachable(w) && w.txs == map[]
    ensures Analytics.GetOrderAnalytics(w.db).refundValue == 2
    ensures w.db.ledger == [Movement(0, None, Adjustment, 5, 0, 5)]
  {
    var w1 := OrderPlaced(policy, false);
    w := CancelOvertakes(Init(policy, false), w1, 1, 0);
    LeadsFromInit(w);
    RefundOfPending(w.db);
  }
}
