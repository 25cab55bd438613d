/** What the movement ledger says about stock and orders in every reachable state: conservation,
    the chain of movements of an item, and the history of an order. */
module Ledger {
  import opened Domain
  import opened Sums
  import opened Spec
  import opened Machine
  import opened Safety
  import opened Coherence
  import opened Serializability

  // ---- Conservation ----

  /** The quantity an order holds of item i. */
  function Held(i: ItemId): Order -> int {
    (o: Order) => if o.item == i && o.status in STOCK_HOLDING_STATES then o.quantity else 0
  }

  function Adjusted(i: ItemId): Movement -> int {
    (m: Movement) => if m.item == i && m.kind == Adjustment then m.delta else 0
  }

  /** The stock change of item i that a request committed although it ended in ConflictError, or
      by writing a stale cached quantity back. */
  function StrayDelta(i: ItemId): Ended -> int {
    (e: Ended) =>
      if !e.committed then 0
      else if e.outcome == Conflict && e.writes.movement.Some? && e.writes.movement.value.item == i
      then e.writes.movement.value.delta
      else if e.req == GetStock(i) then e.drift
      else 0
  }

  function StockOf(db: Db, i: ItemId): int {
    if i in db.items then db.items[i].stock else 0
  }

  ghost predicate Conserved(w: World, i: ItemId) {
    StockOf(w.db, i) + SumRows(w.db.orders, Held(i)) ==
    SumLog(w.db.ledger, Adjusted(i)) + SumLog(w.ended, StrayDelta(i))
  }

  /** How a commit changes the sum of f over the orders. */
  function OrderChange(db: Db, writes: Writes, f: Order -> int): int {
    if writes.order.None? then 0
    else
      var Row(id, row) := writes.order.value;
      f(row) - (if id in db.orders then f(db.orders[id]) else 0)
  }

  /** ... and the sum of f over the movements. */
  function MovementTerm(writes: Writes, f: Movement -> int): int {
    if writes.movement.None? then 0 else f(writes.movement.value)
  }

  lemma CommitSums(db: Db, writes: Writes, f: Order -> int, g: Movement -> int)
    ensures SumRows(Apply(db, writes).orders, f) == SumRows(db.orders, f) + OrderChange(db, writes, f)
    ensures SumLog(Apply(db, writes).ledger, g) == SumLog(db.ledger, g) + MovementTerm(writes, g)
  {
    if writes.order.Some? {
      SumPut(db.orders, f, writes.order.value.key, writes.order.value.row);
    }
    if writes.movement.Some? {
      SumAppend(db.ledger, g, writes.movement.value);
    }
  }

  function EndedAs(db: Db, t: Tid, tx: Tx): Ended
    requires tx.phase.Ending?
  {
    Ended(t, tx.req, tx.phase.outcome, true, tx.writes, Drift(db, tx), tx.quantity)
  }

  /** A commit moves stock and held quantity by its adjustment or its stray change. */
  predicate Balances(db: Db, t: Tid, tx: Tx, i: ItemId)
    requires tx.phase.Ending?
  {
    StockOf(Apply(db, tx.writes), i) - StockOf(db, i) + OrderChange(db, tx.writes, Held(i)) ==
    MovementTerm(tx.writes, Adjusted(i)) + StrayDelta(i)(EndedAs(db, t, tx))
  }

  lemma ConfirmBalances(db: Db, t: Tid, tx: Tx, i: ItemId)
    requires DbOk(db) && TxOk(db, tx) && tx.phase.Ending? && tx.req.Confirm?
    ensures Balances(db, t, tx, i)
  {
  }

  lemma CancelBalances(db: Db, t: Tid, tx: Tx, i: ItemId)
    requires DbOk(db) && TxOk(db, tx) && tx.phase.Ending? && tx.req.Cancel?
    ensures Balances(db, t, tx, i)
  {
  }

  lemma ShipOrDeliverBalances(db: Db, t: Tid, tx: Tx, i: ItemId)
    requires DbOk(db) && TxOk(db, tx) && tx.phase.Ending? && (tx.req.Ship? || tx.req.Deliver?)
    ensures Balances(db, t, tx, i)
  {
  }

  lemma ItemRequestBalances(db: Db, t: Tid, tx: Tx, i: ItemId)
    requires DbOk(db) && TxOk(db, tx) && tx.phase.Ending? && !tx.req.OnOrder()
    ensures Balances(db, t, tx, i)
  {
  }

  lemma CommitBalances(db: Db, t: Tid, tx: Tx, i: ItemId)
    requires DbOk(db) && TxOk(db, tx) && tx.phase.Ending?
    ensures Balances(db, t, tx, i)
  {
    match tx.req
    case Confirm(_) => ConfirmBalances(db, t, tx, i);
    case Cancel(_) => CancelBalances(db, t, tx, i);
    case Ship(_) => ShipOrDeliverBalances(db, t, tx, i);
    case Deliver(_) => ShipOrDeliverBalances(db, t, tx, i);
    case _ => ItemRequestBalances(db, t, tx, i);
  }

  lemma FinishConserves(w: World, t: Tid, i: ItemId)
    requires Inv(w) && t in w.txs && w.txs[t].phase.Ending? && Conserved(w, i)
    ensures Conserved(Finish(w, t), i)
  {
    var tx, w' := w.txs[t], Finish(w, t);
    SumAppend(w.ended, StrayDelta(i), w'.ended[|w.ended|]);
    if w.policy.Commits(tx.phase.outcome) {
      assert w'.ended[|w.ended|] == EndedAs(w.db, t, tx);
      CommitBalances(w.db, t, tx, i);
      CommitSums(w.db, tx.writes, Held(i), Adjusted(i));
    }
  }

  /** Exact conservation, under every commit policy, in every reachable state: stock plus what the
      confirmed, shipped and delivered orders hold equals the adjustments plus the strays. */
  lemma {:induction false} Conservation(policy: Policy, cacheOn: bool, acts: seq<Action>, i: ItemId)
    requires Runnable(Init(policy, cacheOn), acts)
    ensures var w := Exec(Init(policy, cacheOn), acts);
            StockOf(w.db, i) + SumRows(w.db.orders, Held(i)) ==
            SumLog(w.db.ledger, Adjusted(i)) + SumLog(w.ended, StrayDelta(i))
    decreases |acts|
  {
    if acts != [] {
      var prefix, a := acts[..|acts| - 1], acts[|acts| - 1];
      Conservation(policy, cacheOn, prefix, i);
      ExecKeepsInv(Init(policy, cacheOn), prefix);
      var w := Exec(Init(policy, cacheOn), prefix);
      if a.Step? && w.txs[a.tid].phase.Ending? {
        FinishConserves(w, a.tid, i);
      }
    }
  }

  /** The last term is zero if conflicts roll back and the item is read safely: the cache is off, or
      nobody calls get_stock for it, or the run is gentle to it. */
  lemma PlainConservation(policy: Policy, cacheOn: bool, acts: seq<Action>, i: ItemId)
    requires Runnable(Init(policy, cacheOn), acts)
    requires !policy.Commits(Conflict)
    requires ReadsSafely(policy, cacheOn, acts, i)
    ensures var w := Exec(Init(policy, cacheOn), acts);
            StockOf(w.db, i) + SumRows(w.db.orders, Held(i)) == SumLog(w.db.ledger, Adjusted(i))
  {
    Conservation(policy, cacheOn, acts, i);
    RollbackCommitsNoConflict(policy, cacheOn, acts);
    SafeReadsDoNotDrift(policy, cacheOn, acts, i);
    ZeroLog(Exec(Init(policy, cacheOn), acts).ended, StrayDelta(i));
  }

  // ---- The chain of an item ----

  function OfItem(i: ItemId): Movement -> bool {
    (m: Movement) => m.item == i
  }

  /** Movements that start at 0, each of which picks up where the one before it ended. */
  predicate Chain(s: seq<Movement>) {
    forall k | 0 <= k < |s| :: Linked(s, k)
  }

  predicate Linked(s: seq<Movement>, k: nat)
    requires k < |s|
  {
    && s[k].before == (if k == 0 then 0 else s[k - 1].after)
    && s[k].after == s[k].before + s[k].delta
  }

  ghost predicate Chained(w: World, i: ItemId) {
    var s := Select(w.db.ledger, OfItem(i));
    if i !in w.db.items then s == []
    else
      && |s| > 0
      && w.db.items[i].version == |s|
      && (NoDrift(w, i) ==> Chain(s) && s[|s| - 1].after == w.db.items[i].stock)
  }

  /** Every committed movement comes with its item row, picks up the current stock and counts as
      one version; an item row without a movement is a write-back. */
  lemma CommitLinks(db: Db, t: Tid, tx: Tx)
    requires DbOk(db) && TxOk(db, tx) && tx.phase.Ending?
    ensures tx.writes.movement.Some? ==>
              var m := tx.writes.movement.value;
              && tx.writes.item.Some? && tx.writes.item.value.key == m.item && !tx.req.GetStock?
              && m.before == StockOf(db, m.item) && m.after == m.before + m.delta == tx.writes.item.value.row.stock
              && tx.writes.item.value.row.version == (if m.item in db.items then db.items[m.item].version else 0) + 1
    ensures tx.writes.movement.None? && tx.writes.item.Some? ==>
              var i := tx.writes.item.value.key;
              && i in db.items && tx.req.GetStock? && tx.req.item == i
              && tx.writes.item.value.row == db.items[i].(stock := db.items[i].stock + Drift(db, tx))
  {
    match tx.req
    case Confirm(_) =>
    case Cancel(_) =>
    case _ =>
  }

  lemma ChainAppend(s: seq<Movement>, m: Movement)
    requires Chain(s)
    requires m.before == (if s == [] then 0 else s[|s| - 1].after) && m.after == m.before + m.delta
    ensures Chain(s + [m])
  {
    forall k | 0 <= k < |s| ensures Linked(s + [m], k) {
      assert Linked(s, k);
    }
  }

  lemma NoDriftBefore(w: World, t: Tid, i: ItemId)
    requires t in w.txs && w.txs[t].phase.Ending? && NoDrift(Finish(w, t), i)
    ensures NoDrift(w, i)
    ensures w.policy.Commits(w.txs[t].phase.outcome) && w.txs[t].req == GetStock(i) ==>
              Drift(w.db, w.txs[t]) == 0
  {
    var w' := Finish(w, t);
    forall e | e in w.ended && e.req == GetStock(i) ensures e.drift == 0 {
      assert e in w'.ended;
    }
    assert w'.ended[|w.ended|] in w'.ended;
  }

  lemma FinishChains(w: World, t: Tid, i: ItemId)
    requires DbOk(w.db) && t in w.txs && TxOk(w.db, w.txs[t]) && w.txs[t].phase.Ending? && Chained(w, i)
    ensures Chained(Finish(w, t), i)
  {
    var tx, w' := w.txs[t], Finish(w, t);
    var s := Select(w.db.ledger, OfItem(i));
    CommitLinks(w.db, t, tx);
    if NoDrift(w', i) {
      NoDriftBefore(w, t, i);
    }
    if w.policy.Commits(tx.phase.outcome) && tx.writes.movement.Some? {
      var m := tx.writes.movement.value;
      SelectAppend(w.db.ledger, OfItem(i), m);
      assert Select(w'.db.ledger, OfItem(i)) == if m.item == i then s + [m] else s;
      if m.item == i && NoDrift(w', i) {
        ChainAppend(s, m);
      }
    }
  }

  /** Under every commit policy the movements of an item form a chain from 0 to its current stock,
      as long as no write-back has moved it, and its version counts them in any case. */
  lemma {:induction false} LedgerChain(policy: Policy, cacheOn: bool, acts: seq<Action>, i: ItemId)
    requires Runnable(Init(policy, cacheOn), acts)
    ensures Chained(Exec(Init(policy, cacheOn), acts), i)
    decreases |acts|
  {
    if acts != [] {
      var prefix, a := acts[..|acts| - 1], acts[|acts| - 1];
      LedgerChain(policy, cacheOn, prefix, i);
      ExecKeepsInv(Init(policy, cacheOn), prefix);
      var w := Exec(Init(policy, cacheOn), prefix);
      if a.Step? && w.txs[a.tid].phase.Ending? {
        FinishChains(w, a.tid, i);
      }
    }
  }

  // ---- The history of an order ----

  function OfOrder(id: OrderId): Movement -> bool {
    (m: Movement) => m.order == Some(id)
  }

  /** What a movement did, without the stock levels around it. */
  datatype Effect = Effect(item: ItemId, kind: MovementType, delta: int)

  function History(db: Db, id: OrderId): seq<Effect> {
    Effects(Select(db.ledger, OfOrder(id)))
  }

  function Effects(s: seq<Movement>): seq<Effect> {
    seq(|s|, k requires 0 <= k < |s| => Effect(s[k].item, s[k].kind, s[k].delta))
  }

  /** The history that an order row implies. */
  function Expected(o: Order): seq<Effect> {
    var deduction := Effect(o.item, Deduction, -o.quantity);
    var restoration := Effect(o.item, Restoration, o.quantity);
    match o.status
    case Pending => []
    case Rejected => []
    case Confirmed => [deduction]
    case Shipped => [deduction]
    case Delivered => [deduction]
    case Cancelled => if o.version == 2 then [] else [deduction, restoration]
  }

  /** One for every movement of order id that a request committed in spite of its ConflictError. */
  function StrayMove(id: OrderId): Ended -> int {
    (e: Ended) =>
      if e.committed && e.outcome == Conflict && e.writes.movement.Some? && e.writes.movement.value.order == Some(id)
      then 1 else 0
  }

  ghost predicate Recorded(w: World, id: OrderId) {
    && SumLog(w.ended, StrayMove(id)) >= 0
    && if id !in w.db.orders then History(w.db, id) == [] && SumLog(w.ended, StrayMove(id)) == 0
       else
         && |History(w.db, id)| == |Expected(w.db.orders[id])| + SumLog(w.ended, StrayMove(id))
         && (SumLog(w.ended, StrayMove(id)) == 0 ==> History(w.db, id) == Expected(w.db.orders[id]))
  }

  /** What a committed request adds to the history of an order is what its row then implies, unless
      it is a stray. */
  predicate Extends(db: Db, t: Tid, tx: Tx, id: OrderId)
    requires tx.phase.Ending?
  {
    var orders := Apply(db, tx.writes).orders;
    if StrayMove(id)(EndedAs(db, t, tx)) == 1 then id in db.orders && orders == db.orders
    else
      var added := if tx.writes.movement.Some? && tx.writes.movement.value.order == Some(id)
                   then Effects([tx.writes.movement.value]) else [];
      if id !in orders then added == []
      else Expected(orders[id]) == (if id in db.orders then Expected(db.orders[id]) else []) + added
  }

  lemma ConfirmExtends(db: Db, t: Tid, tx: Tx, id: OrderId)
    requires DbOk(db) && TxOk(db, tx) && tx.phase.Ending? && tx.req.Confirm?
    ensures Extends(db, t, tx, id)
  {
  }

  lemma CancelExtends(db: Db, t: Tid, tx: Tx, id: OrderId)
    requires DbOk(db) && TxOk(db, tx) && tx.phase.Ending? && tx.req.Cancel?
    ensures Extends(db, t, tx, id)
  {
  }

  lemma OtherExtends(db: Db, t: Tid, tx: Tx, id: OrderId)
    requires DbOk(db) && TxOk(db, tx) && tx.phase.Ending? && !tx.req.Confirm? && !tx.req.Cancel?
    ensures Extends(db, t, tx, id)
  {
  }

  lemma CommitExtends(db: Db, t: Tid, tx: Tx, id: OrderId)
    requires DbOk(db) && TxOk(db, tx) && tx.phase.Ending?
    ensures Extends(db, t, tx, id)
  {
    match tx.req
    case Confirm(_) => ConfirmExtends(db, t, tx, id);
    case Cancel(_) => CancelExtends(db, t, tx, id);
    case _ => OtherExtends(db, t, tx, id);
  }

  lemma HistoryAppend(db: Db, db': Db, m: Movement, id: OrderId)
    requires db'.ledger == db.ledger + [m]
    ensures History(db', id) == History(db, id) + (if m.order == Some(id) then Effects([m]) else [])
  {
    SelectAppend(db.ledger, OfOrder(id), m);
  }

  lemma FinishRecords(w: World, t: Tid, id: OrderId)
    requires DbOk(w.db) && t in w.txs && TxOk(w.db, w.txs[t]) && w.txs[t].phase.Ending? && Recorded(w, id)
    ensures Recorded(Finish(w, t), id)
  {
    var tx, w' := w.txs[t], Finish(w, t);
    SumAppend(w.ended, StrayMove(id), w'.ended[|w.ended|]);
    if w.policy.Commits(tx.phase.outcome) {
      assert w'.ended[|w.ended|] == EndedAs(w.db, t, tx);
      CommitExtends(w.db, t, tx, id);
      if tx.writes.movement.Some? {
        HistoryAppend(w.db, w'.db, tx.writes.movement.value, id);
      }
    }
  }

  lemma NextRecords(w: World, a: Action, id: OrderId)
    requires Inv(w) && Enabled(w, a) && Recorded(w, id)
    ensures Recorded(Next(w, a), id)
    ensures id in Next(w, a).db.orders ==> LifeCycle(Next(w, a).db.orders[id].status, Next(w, a).db.orders[id].version)
  {
    NextKeepsInv(w, a);
    if a.Step? && w.txs[a.tid].phase.Ending? {
      assert TxOk(w.db, w.txs[a.tid]);
      FinishRecords(w, a.tid, id);
    } else {
      assert Next(w, a).db == w.db && Next(w, a).ended == w.ended;
    }
  }

  /** The movements of an order are determined by its status, version and quantity, exactly when no
      conflicting request on it has committed a movement. */
  lemma {:induction false} HistoryIsRecoverable(policy: Policy, cacheOn: bool, acts: seq<Action>, id: OrderId)
    requires Runnable(Init(policy, cacheOn), acts)
    ensures var w := Exec(Init(policy, cacheOn), acts);
            && Recorded(w, id)
            && (id in w.db.orders ==>
                  && LifeCycle(w.db.orders[id].status, w.db.orders[id].version)
                  && (History(w.db, id) == Expected(w.db.orders[id]) <==> SumLog(w.ended, StrayMove(id)) == 0))
    decreases |acts|
  {
    if acts != [] {
      var prefix, a := acts[..|acts| - 1], acts[|acts| - 1];
      HistoryIsRecoverable(policy, cacheOn, prefix, id);
      ExecKeepsInv(Init(policy, cacheOn), prefix);
      var w := Exec(Init(policy, cacheOn), prefix);
      NextRecords(w, a, id);
    }
  }

  // ---- Conflicts that roll back ----

  /** If conflicts roll back, then however many confirms and cancels of one order interleave, at most
      one deduction and one restoration are committed, the restoration after the deduction. */
  lemma AtMostOnce(policy: Policy, cacheOn: bool, acts: seq<Action>, id: OrderId)
    requires Runnable(Init(policy, cacheOn), acts) && !policy.Commits(Conflict)
    ensures var h := History(Exec(Init(policy, cacheOn), acts).db, id);
            && (forall j, k | 0 <= j < |h| && 0 <= k < |h| && h[j].kind == h[k].kind :: j == k)
            && (forall k | 0 <= k < |h| && h[k].kind == Restoration ::
                  k == 1 && h[0].kind == Deduction && h[0].delta + h[1].delta == 0)
  {
    HistoryIsRecoverable(policy, cacheOn, acts, id);
    RollbackCommitsNoConflict(policy, cacheOn, acts);
    ZeroLog(Exec(Init(policy, cacheOn), acts).ended, StrayMove(id));
  }
}
