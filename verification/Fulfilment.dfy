/** Confirms only, on whatever tables the other requests have left: no refusal is unjustified, and
    unit orders are confirmed exactly as far as the stock goes that no conflict has wasted. */
module Fulfilment {
  import opened Domain
  import opened Sums
  import opened Spec
  import opened Machine
  import opened Safety

  ghost predicate ConfirmsOnly(acts: seq<Action>) {
    forall a | a in acts && a.Begin? :: a.req.Confirm?
  }

  // ---- Refusals ----

  /** Every confirm refused since position start was for more than the item has now. */
  ghost predicate RefusalsJustified(w: World, start: nat) {
    && start <= |w.ended|
    && (forall t | t in w.txs :: w.txs[t].req.Confirm?)
    && (forall k | start <= k < |w.ended| && w.ended[k].outcome == InsufficientStock :: Justified(w.db, w.ended[k].req))
  }

  predicate Justified(db: Db, req: Request) {
    && req.Confirm? && req.order in db.orders
    && db.orders[req.order].item in db.items
    && db.items[db.orders[req.order].item].stock < db.orders[req.order].quantity
  }

  /** A committed confirm raises no stock. */
  lemma ConfirmLowersStock(db: Db, tx: Tx, req: Request)
    requires DbOk(db) && TxOk(db, tx) && tx.phase.Ending? && tx.req.Confirm?
    ensures Justified(db, req) ==> Justified(Apply(db, tx.writes), req)
    ensures tx.phase.outcome == InsufficientStock ==> Justified(Apply(db, tx.writes), tx.req) && Justified(db, tx.req)
  {
  }

  lemma FinishJustifies(w: World, t: Tid, start: nat)
    requires DbOk(w.db) && t in w.txs && TxOk(w.db, w.txs[t]) && w.txs[t].phase.Ending? && RefusalsJustified(w, start)
    ensures RefusalsJustified(Finish(w, t), start)
  {
    var tx, w' := w.txs[t], Finish(w, t);
    ConfirmLowersStock(w.db, tx, tx.req);
    forall k | start <= k < |w'.ended| && w'.ended[k].outcome == InsufficientStock
      ensures Justified(w'.db, w'.ended[k].req)
    {
      if k < |w.ended| {
        ConfirmLowersStock(w.db, tx, w.ended[k].req);
      }
    }
  }

  lemma NextJustifies(w: World, a: Action, start: nat)
    requires DbOk(w.db) && Enabled(w, a) && RefusalsJustified(w, start)
    requires a.Step? ==> TxOk(w.db, w.txs[a.tid])
    requires a.Begin? ==> a.req.Confirm?
    ensures RefusalsJustified(Next(w, a), start)
  {
    if a.Step? && w.txs[a.tid].phase.Ending? {
      FinishJustifies(w, a.tid, start);
    } else {
      assert Next(w, a).db == w.db && Next(w, a).ended == w.ended;
    }
  }

  /** In any interleaving of confirms, crashes and cache faults, under every commit policy, every
      order refused for insufficient stock is larger than the stock its item ends up with. */
  lemma {:induction false} RefusedIsTooLarge(w: World, acts: seq<Action>)
    requires Inv(w) && w.txs == map[] && Runnable(w, acts) && ConfirmsOnly(acts)
    ensures RefusalsJustified(Exec(w, acts), |w.ended|)
    decreases |acts|
  {
    if acts != [] {
      var prefix, a := acts[..|acts| - 1], acts[|acts| - 1];
      RefusedIsTooLarge(w, prefix);
      ExecKeepsInv(w, prefix);
      assert a in acts;
      NextJustifies(Exec(w, prefix), a, |w.ended|);
    }
  }

  // ---- Unit orders on one item ----

  /** Pending orders for one unit of item i. */
  ghost predicate UnitOrders(db: Db, orders: set<OrderId>, i: ItemId) {
    && i in db.items
    && (forall o | o in orders :: o in db.orders && db.orders[o] == Order(i, 1, Pending, 1))
  }

  ghost function ConfirmedAmong(db: Db, orders: set<OrderId>): set<OrderId> {
    set o | o in orders && o in db.orders && db.orders[o].status == Confirmed
  }

  /** A unit of stock that a confirm took although it ended in ConflictError. */
  predicate Wasteful(e: Ended) {
    e.committed && e.outcome == Conflict && e.writes.movement.Some?
  }

  function Waste(): Ended -> int {
    (e: Ended) => if Wasteful(e) then 1 else 0
  }

  /** The units wasted since position start. */
  function Wasted(w: World, start: nat): int
    requires start <= |w.ended|
  {
    SumLog(w.ended[start..], Waste())
  }

  predicate Settled(db: Db, o: OrderId, i: ItemId) {
    o in db.orders && i in db.items && (db.orders[o].status != Pending || db.items[i].stock < 1)
  }

  /** The state of the orders while their confirms interleave. */
  ghost predicate Race(w: World, orders: set<OrderId>, i: ItemId, stock: int, start: nat) {
    && start <= |w.ended|
    && i in w.db.items
    && (forall o | o in orders :: o in w.db.orders && RaceOrder(w.db, o, i))
    && (forall t | t in w.txs :: RaceTx(w.db, w.txs[t], orders))
    && (forall k | start <= k < |w.ended| ::
          w.ended[k].req.Confirm? && w.ended[k].req.order in orders && Settled(w.db, w.ended[k].req.order, i))
    && w.db.items[i].stock + |ConfirmedAmong(w.db, orders)| + Wasted(w, start) == stock
  }

  predicate RaceOrder(db: Db, o: OrderId, i: ItemId)
    requires o in db.orders && i in db.items
  {
    && db.orders[o].item == i && db.orders[o].quantity == 1
    && db.orders[o].status in {Pending, Confirmed, Rejected}
    && (db.orders[o].status == Rejected ==> db.items[i].stock < 1)
  }

  predicate RaceTx(db: Db, tx: Tx, orders: set<OrderId>) {
    && tx.req.Confirm? && tx.req.order in orders && tx.req.order in db.orders
    && (tx.phase.Ending? ==> tx.phase.outcome != NotFound)
    && (tx.phase.Ending? && tx.phase.outcome in {InvalidTransition, Conflict} ==>
          db.orders[tx.req.order].status != Pending)
  }

  lemma AdvanceRaces(db: Db, hit: Option<int>, tx: Tx, orders: set<OrderId>)
    requires DbOk(db) && TxOk(db, tx) && RaceTx(db, tx, orders) && !tx.phase.Ending?
    ensures RaceTx(db, Advance(db, hit, tx), orders)
  {
  }

  /** One confirm has ended: only its order has moved on, and stock has not grown. */
  predicate OneEnded(db: Db, db': Db, o: OrderId, i: ItemId) {
    && o in db.orders && o in db'.orders && i in db.items && i in db'.items
    && db'.orders == db.orders[o := db'.orders[o]]
    && db'.items[i].stock <= db.items[i].stock
    && (db'.orders[o] == db.orders[o] || (db.orders[o].status == Pending && db'.orders[o].status != Pending))
  }

  /** What the commit of one confirm does to the race. */
  lemma CommitRaces(db: Db, tx: Tx, orders: set<OrderId>, i: ItemId)
    requires DbOk(db) && TxOk(db, tx) && RaceTx(db, tx, orders) && tx.phase.Ending? && tx.phase.outcome != Conflict
    requires i in db.items && RaceOrder(db, tx.req.order, i)
    ensures var db' := Apply(db, tx.writes); var o := tx.req.order;
            && OneEnded(db, db', o, i)
            && Settled(db', o, i) && RaceOrder(db', o, i)
            && (db.orders[o].status != Confirmed && db'.orders[o].status == Confirmed <==> tx.phase.outcome == Success)
            && db'.items[i].stock == db.items[i].stock - (if tx.phase.outcome == Success then 1 else 0)
  {
  }

  /** A committed conflict leaves the orders alone, and wastes a unit if it had come to deduct it. */
  lemma ConflictRaces(db: Db, tx: Tx, orders: set<OrderId>, i: ItemId)
    requires DbOk(db) && TxOk(db, tx) && RaceTx(db, tx, orders) && tx.phase == Ending(Conflict)
    requires i in db.items && RaceOrder(db, tx.req.order, i)
    ensures var db' := Apply(db, tx.writes); var o := tx.req.order;
            && OneEnded(db, db', o, i) && db'.orders == db.orders
            && Settled(db', o, i) && RaceOrder(db', o, i)
            && db'.items[i].stock == db.items[i].stock - (if tx.writes.movement.Some? then 1 else 0)
  {
  }

  /** A rolled-back confirm has settled its order, too: it found it changed or the stock gone. */
  lemma RollbackSettles(db: Db, tx: Tx, orders: set<OrderId>, i: ItemId)
    requires DbOk(db) && TxOk(db, tx) && RaceTx(db, tx, orders) && tx.phase.Ending? && tx.phase.outcome != Success
    requires i in db.items && RaceOrder(db, tx.req.order, i)
    ensures Settled(db, tx.req.order, i)
  {
  }

  lemma OthersRaceOn(db: Db, db': Db, o: OrderId, i: ItemId, orders: set<OrderId>)
    requires OneEnded(db, db', o, i)
    ensures forall p | p in db.orders && p != o && RaceOrder(db, p, i) :: RaceOrder(db', p, i)
    ensures forall p | Settled(db, p, i) :: Settled(db', p, i)
    ensures forall tx: Tx | RaceTx(db, tx, orders) :: RaceTx(db', tx, orders)
  {
  }

  /** The confirmed orders grow by the order that a successful confirm ends. */
  lemma CountConfirmed(db: Db, db': Db, o: OrderId, i: ItemId, orders: set<OrderId>)
    requires OneEnded(db, db', o, i) && o in orders
    requires db.orders[o].status == Confirmed ==> db'.orders[o].status == Confirmed
    ensures |ConfirmedAmong(db', orders)| ==
            |ConfirmedAmong(db, orders)| +
            (if db.orders[o].status != Confirmed && db'.orders[o].status == Confirmed then 1 else 0)
  {
    if db.orders[o].status != Confirmed && db'.orders[o].status == Confirmed {
      assert ConfirmedAmong(db', orders) == ConfirmedAmong(db, orders) + {o};
    } else {
      assert ConfirmedAmong(db', orders) == ConfirmedAmong(db, orders);
    }
  }

  lemma WastedGrows(w: World, t: Tid, start: nat)
    requires t in w.txs && w.txs[t].phase.Ending? && start <= |w.ended|
    ensures Wasted(Finish(w, t), start) == Wasted(w, start) + Waste()(Finish(w, t).ended[|w.ended|])
  {
    var w' := Finish(w, t);
    assert w'.ended[start..] == w.ended[start..] + [w'.ended[|w.ended|]];
    SumAppend(w.ended[start..], Waste(), w'.ended[|w.ended|]);
  }

  /** The end of one confirm keeps the sum of stock, confirmed orders and wasted units. */
  ghost predicate Balanced(db: Db, db': Db, o: OrderId, orders: set<OrderId>, i: ItemId, waste: int) {
    && OneEnded(db, db', o, i) && Settled(db', o, i) && RaceOrder(db', o, i)
    && db'.items[i].stock + |ConfirmedAmong(db', orders)| + waste == db.items[i].stock + |ConfirmedAmong(db, orders)|
  }

  lemma EndBalances(w: World, t: Tid, orders: set<OrderId>, i: ItemId)
    requires DbOk(w.db) && t in w.txs && TxOk(w.db, w.txs[t]) && w.txs[t].phase.Ending?
    requires RaceTx(w.db, w.txs[t], orders) && i in w.db.items && RaceOrder(w.db, w.txs[t].req.order, i)
    ensures Balanced(w.db, Finish(w, t).db, w.txs[t].req.order, orders, i, Waste()(Finish(w, t).ended[|w.ended|]))
  {
    var tx, w' := w.txs[t], Finish(w, t);
    if !w.policy.Commits(tx.phase.outcome) {
      RollbackSettles(w.db, tx, orders, i);
    } else if tx.phase.outcome == Conflict {
      ConflictRaces(w.db, tx, orders, i);
    } else {
      CommitRaces(w.db, tx, orders, i);
    }
    CountConfirmed(w.db, w'.db, tx.req.order, i, orders);
  }

  lemma FinishRaces(w: World, t: Tid, orders: set<OrderId>, i: ItemId, stock: int, start: nat)
    requires DbOk(w.db) && t in w.txs && TxOk(w.db, w.txs[t]) && w.txs[t].phase.Ending?
    requires Race(w, orders, i, stock, start)
    ensures Race(Finish(w, t), orders, i, stock, start)
  {
    assert RaceTx(w.db, w.txs[t], orders) && RaceOrder(w.db, w.txs[t].req.order, i);
    EndBalances(w, t, orders, i);
    RaceBalances(w, t, orders, i, stock, start);
  }

  lemma RaceBalances(w: World, t: Tid, orders: set<OrderId>, i: ItemId, stock: int, start: nat)
    requires t in w.txs && w.txs[t].phase.Ending? && w.txs[t].req.Confirm? && Race(w, orders, i, stock, start)
    requires Balanced(w.db, Finish(w, t).db, w.txs[t].req.order, orders, i, Waste()(Finish(w, t).ended[|w.ended|]))
    ensures Race(Finish(w, t), orders, i, stock, start)
  {
    OthersRaceOn(w.db, Finish(w, t).db, w.txs[t].req.order, i, orders);
    WastedGrows(w, t, start);
  }

  lemma AdvanceKeepsRace(w: World, t: Tid, glitch: bool, orders: set<OrderId>, i: ItemId, stock: int, start: nat)
    requires DbOk(w.db) && Enabled(w, Step(t, glitch)) && TxOk(w.db, w.txs[t]) && !w.txs[t].phase.Ending?
    requires Race(w, orders, i, stock, start)
    ensures Race(Next(w, Step(t, glitch)), orders, i, stock, start)
  {
    AdvanceRaces(w.db, Lookup(w, w.txs[t].req, glitch), w.txs[t], orders);
    OneRaces(w, Next(w, Step(t, glitch)), t, orders, i, stock, start);
  }

  lemma OneRaces(w: World, w': World, t: Tid, orders: set<OrderId>, i: ItemId, stock: int, start: nat)
    requires Race(w, orders, i, stock, start) && w'.db == w.db && w'.ended == w.ended
    requires t in w'.txs && w'.txs == w.txs[t := w'.txs[t]] && RaceTx(w.db, w'.txs[t], orders)
    ensures Race(w', orders, i, stock, start)
  {
  }

  lemma NextKeepsRace(w: World, a: Action, orders: set<OrderId>, i: ItemId, stock: int, start: nat)
    requires DbOk(w.db) && Enabled(w, a) && Race(w, orders, i, stock, start)
    requires a.Step? ==> TxOk(w.db, w.txs[a.tid])
    requires a.Begin? ==> a.req.Confirm? && a.req.order in orders
    ensures Race(Next(w, a), orders, i, stock, start)
  {
    if a.Step? && w.txs[a.tid].phase.Ending? {
      FinishRaces(w, a.tid, orders, i, stock, start);
    } else if a.Step? {
      AdvanceKeepsRace(w, a.tid, a.glitch, orders, i, stock, start);
    }
  }

  /** Confirms of these orders and of no others. */
  ghost predicate ConfirmsOf(acts: seq<Action>, orders: set<OrderId>) {
    ConfirmsOnly(acts) && forall a | a in acts && a.Begin? && a.req.Confirm? :: a.req.order in orders
  }

  lemma {:induction false} RaceGoesOn(w: World, acts: seq<Action>, orders: set<OrderId>, i: ItemId)
    requires Inv(w) && w.txs == map[] && Runnable(w, acts) && UnitOrders(w.db, orders, i) && ConfirmsOf(acts, orders)
    ensures Race(Exec(w, acts), orders, i, w.db.items[i].stock, |w.ended|)
    decreases |acts|
  {
    if acts == [] {
      assert ConfirmedAmong(w.db, orders) == {};
    } else {
      var prefix, a := acts[..|acts| - 1], acts[|acts| - 1];
      RaceGoesOn(w, prefix, orders, i);
      ExecKeepsInv(w, prefix);
      assert a in acts;
      NextKeepsRace(Exec(w, prefix), a, orders, i, w.db.items[i].stock, |w.ended|);
    }
  }

  // ---- When conflicts cannot commit ----

  /** Each order is requested by at most one confirm. */
  ghost predicate OnePerOrder(acts: seq<Action>) {
    forall j, k | 0 <= j < k < |acts| && acts[j].Begin? && acts[k].Begin? :: acts[j].req != acts[k].req
  }

  /** Nobody else works on the orders of the open requests. */
  ghost predicate Undisturbed(w: World, acts: seq<Action>, start: nat) {
    && start <= |w.ended|
    && (forall t | t in w.txs :: w.txs[t].req.Confirm? && Requested(acts, w.txs[t].req))
    && (forall t, u | t in w.txs && u in w.txs && t != u :: w.txs[t].req != w.txs[u].req)
    && (forall t | t in w.txs :: CurrentOrder(w.db, w.txs[t]))
    && (forall k | start <= k < |w.ended| :: w.ended[k].outcome != Conflict)
  }

  ghost predicate Requested(acts: seq<Action>, req: Request) {
    exists j | 0 <= j < |acts| :: acts[j].Begin? && acts[j].req == req
  }

  predicate CurrentOrder(db: Db, tx: Tx) {
    && (tx.phase.Ending? ==> tx.phase.outcome != Conflict)
    && (tx.req.Confirm? && tx.order.Some? && tx.req.order in db.orders ==> tx.order.value == db.orders[tx.req.order])
  }

  lemma AdvanceStaysCurrent(db: Db, hit: Option<int>, tx: Tx)
    requires DbOk(db) && TxOk(db, tx) && CurrentOrder(db, tx) && tx.req.Confirm? && !tx.phase.Ending?
    ensures CurrentOrder(db, Advance(db, hit, tx))
  {
  }

  lemma CommitStaysCurrent(db: Db, tx: Tx, other: Tx)
    requires DbOk(db) && TxOk(db, tx) && tx.phase.Ending? && TxOk(db, other) && CurrentOrder(db, other)
    requires tx.req.Confirm? && other.req.Confirm? && tx.req != other.req
    ensures CurrentOrder(Apply(db, tx.writes), other)
  {
  }

  lemma BeginStaysUndisturbed(w: World, acts: seq<Action>, a: Action, start: nat)
    requires Undisturbed(w, acts, start) && a.Begin? && a.req.Confirm? && Enabled(w, a) && OnePerOrder(acts + [a])
    ensures Undisturbed(Next(w, a), acts + [a], start)
  {
    assert (acts + [a])[|acts|] == a;
    forall t | t in w.txs ensures w.txs[t].req != a.req && Requested(acts + [a], w.txs[t].req) {
      StaysRequested(acts, a, w.txs[t].req);
      var j :| 0 <= j < |acts| && acts[j].Begin? && acts[j].req == w.txs[t].req;
      assert (acts + [a])[j] == acts[j];
    }
    assert Requested(acts + [a], a.req);
  }

  lemma StaysRequested(acts: seq<Action>, a: Action, req: Request)
    requires Requested(acts, req)
    ensures Requested(acts + [a], req)
  {
    var j :| 0 <= j < |acts| && acts[j].Begin? && acts[j].req == req;
    assert (acts + [a])[j] == acts[j];
  }

  lemma FinishStaysUndisturbed(w: World, t: Tid, acts: seq<Action>, start: nat)
    requires Inv(w) && t in w.txs && w.txs[t].phase.Ending? && Undisturbed(w, acts, start)
    ensures Undisturbed(Finish(w, t), acts, start)
  {
    var tx, w' := w.txs[t], Finish(w, t);
    assert TxOk(w.db, tx) && CurrentOrder(w.db, tx);
    forall u | u in w'.txs ensures CurrentOrder(w'.db, w'.txs[u]) {
      assert TxOk(w.db, w.txs[u]) && CurrentOrder(w.db, w.txs[u]) && w.txs[u].req != tx.req;
      CommitStaysCurrent(w.db, tx, w.txs[u]);
    }
  }

  lemma AdvanceStaysUndisturbed(w: World, t: Tid, glitch: bool, acts: seq<Action>, start: nat)
    requires DbOk(w.db) && Enabled(w, Step(t, glitch)) && TxOk(w.db, w.txs[t]) && !w.txs[t].phase.Ending?
    requires Undisturbed(w, acts, start)
    ensures Undisturbed(Next(w, Step(t, glitch)), acts, start)
  {
    var tx, hit := w.txs[t], Lookup(w, w.txs[t].req, glitch);
    AdvanceStaysCurrent(w.db, hit, tx);
    AdvanceAcquires(w.db, hit, tx);
    OneStaysUndisturbed(w, Next(w, Step(t, glitch)), t, acts, start);
  }

  lemma OneStaysUndisturbed(w: World, w': World, t: Tid, acts: seq<Action>, start: nat)
    requires Undisturbed(w, acts, start) && w'.db == w.db && w'.ended == w.ended
    requires t in w.txs && t in w'.txs && w'.txs == w.txs[t := w'.txs[t]]
    requires w'.txs[t].req == w.txs[t].req && CurrentOrder(w.db, w'.txs[t])
    ensures Undisturbed(w', acts, start)
  {
    assert forall u | u in w'.txs :: w'.txs[u].req == w.txs[u].req;
  }

  /** If every order is confirmed by at most one request, no confirm ends in ConflictError. */
  lemma {:induction false} DistinctConfirmsNeverConflict(w: World, acts: seq<Action>)
    requires Inv(w) && w.txs == map[] && Runnable(w, acts) && ConfirmsOnly(acts) && OnePerOrder(acts)
    ensures Undisturbed(Exec(w, acts), acts, |w.ended|)
    decreases |acts|
  {
    if acts != [] {
      var prefix, a := acts[..|acts| - 1], acts[|acts| - 1];
      DistinctConfirmsNeverConflict(w, prefix);
      ExecKeepsInv(w, prefix);
      var w' := Exec(w, prefix);
      assert a in acts && acts == prefix + [a];
      if a.Begin? {
        BeginStaysUndisturbed(w', prefix, a, |w.ended|);
      } else {
        UnbegunStaysUndisturbed(w', prefix, a, |w.ended|);
      }
    }
  }

  lemma UnbegunStaysUndisturbed(w: World, acts: seq<Action>, a: Action, start: nat)
    requires Inv(w) && Undisturbed(w, acts, start) && !a.Begin? && Enabled(w, a)
    ensures Undisturbed(Next(w, a), acts + [a], start)
  {
    if a.Step? {
      assert TxOk(w.db, w.txs[a.tid]);
      if w.txs[a.tid].phase.Ending? {
        FinishStaysUndisturbed(w, a.tid, acts, start);
      } else {
        AdvanceStaysUndisturbed(w, a.tid, a.glitch, acts, start);
      }
    }
    var w' := Next(w, a);
    assert Undisturbed(w', acts, start);
    forall t | t in w'.txs ensures Requested(acts + [a], w'.txs[t].req) {
      StaysRequested(acts, a, w'.txs[t].req);
    }
  }

  // ---- The result ----

  ghost predicate NoWaste(w: World, start: nat) {
    start <= |w.ended| && forall k | start <= k < |w.ended| :: !Wasteful(w.ended[k])
  }

  lemma {:induction false} RollbackWastesNothing(w: World, acts: seq<Action>)
    requires Inv(w) && Runnable(w, acts) && !w.policy.Commits(Conflict)
    ensures NoWaste(Exec(w, acts), |w.ended|)
    decreases |acts|
  {
    if acts != [] {
      RollbackWastesNothing(w, acts[..|acts| - 1]);
      ExecKeepsInv(w, acts[..|acts| - 1]);
    }
  }

  lemma NoWasteIsZero(w: World, start: nat)
    requires NoWaste(w, start)
    ensures Wasted(w, start) == 0
  {
    forall e | e in w.ended[start..] ensures Waste()(e) == 0 {
      var k :| 0 <= k < |w.ended[start..]| && w.ended[start..][k] == e;
      assert w.ended[start + k] == e;
    }
    ZeroLog(w.ended[start..], Waste());
  }

  /** The wasted units are not negative. */
  lemma {:induction false} WasteIsNatural(ended: seq<Ended>)
    ensures SumLog(ended, Waste()) >= 0
    decreases |ended|
  {
    if ended != [] {
      WasteIsNatural(ended[..|ended| - 1]);
    }
  }

  function Min(a: int, b: int): int {
    if a < b then a else b
  }

  /** Every order has had a reply. */
  ghost predicate AllAnswered(w: World, start: nat, orders: set<OrderId>) {
    start <= |w.ended| && forall o | o in orders :: exists k | start <= k < |w.ended| :: w.ended[k].req == Confirm(o)
  }

  /** As many orders are confirmed as there are orders, or units in stock less the wasted ones; which is
      as many as there are orders or units in stock, exactly if none was wasted or enough were left. */
  ghost predicate Fulfilled(w: World, orders: set<OrderId>, stock: int, start: nat) {
    && start <= |w.ended|
    && var wasted, confirmed := Wasted(w, start), |ConfirmedAmong(w.db, orders)|;
       && wasted >= 0 && confirmed == Min(|orders|, stock - wasted)
       && (confirmed == Min(|orders|, stock) <==> wasted == 0 || |orders| <= stock - wasted)
  }

  /** What the race has come to once every order has had a reply. */
  lemma RaceIsOver(w: World, orders: set<OrderId>, i: ItemId, stock: int, start: nat)
    requires DbOk(w.db) && Race(w, orders, i, stock, start) && AllAnswered(w, start, orders)
    ensures Fulfilled(w, orders, stock, start)
  {
    var confirmed := ConfirmedAmong(w.db, orders);
    assert ItemOk(w.db.items[i]);
    WasteIsNatural(w.ended[start..]);
    if w.db.items[i].stock == 0 {
      SubsetSize(confirmed, orders);
    } else {
      forall o | o in orders ensures o in confirmed {
        var k :| start <= k < |w.ended| && w.ended[k].req == Confirm(o);
        assert Settled(w.db, w.ended[k].req.order, i);
        assert RaceOrder(w.db, o, i);
      }
      assert confirmed == orders;
    }
  }

  lemma FulfilledWithoutWaste(w: World, orders: set<OrderId>, stock: int, start: nat)
    requires Fulfilled(w, orders, stock, start) && NoWaste(w, start)
    ensures |ConfirmedAmong(w.db, orders)| == Min(|orders|, stock)
  {
    NoWasteIsZero(w, start);
  }

  /** Distinct pending unit orders on one item, confirmed in any interleaving, under every policy, until
      every one of them has had a reply: exactly as many end up confirmed as there are orders, or units
      in stock less the ones that conflicting confirms wasted. */
  lemma MaximalFulfilment(w: World, acts: seq<Action>, orders: set<OrderId>, i: ItemId)
    requires Reachable(w) && w.txs == map[] && Runnable(w, acts) && UnitOrders(w.db, orders, i)
    requires ConfirmsOf(acts, orders) && AllAnswered(Exec(w, acts), |w.ended|, orders)
    ensures Fulfilled(Exec(w, acts), orders, w.db.items[i].stock, |w.ended|)
  {
    ReachableInv(w);
    ExecKeepsInv(w, acts);
    RaceGoesOn(w, acts, orders, i);
    RaceIsOver(Exec(w, acts), orders, i, w.db.items[i].stock, |w.ended|);
  }

  /** None is wasted if conflicts roll back, or if each order is requested once. */
  lemma FulfilmentWithoutWaste(w: World, acts: seq<Action>, orders: set<OrderId>, i: ItemId)
    requires Reachable(w) && w.txs == map[] && Runnable(w, acts) && UnitOrders(w.db, orders, i)
    requires ConfirmsOf(acts, orders) && AllAnswered(Exec(w, acts), |w.ended|, orders)
    requires !w.policy.Commits(Conflict) || OnePerOrder(acts)
    ensures |ConfirmedAmong(Exec(w, acts).db, orders)| == Min(|orders|, w.db.items[i].stock)
  {
    MaximalFulfilment(w, acts, orders, i);
    WastesNothing(w, acts);
    FulfilledWithoutWaste(Exec(w, acts), orders, w.db.items[i].stock, |w.ended|);
  }

  lemma WastesNothing(w: World, acts: seq<Action>)
    requires Reachable(w) && w.txs == map[] && Runnable(w, acts) && ConfirmsOnly(acts)
    requires !w.policy.Commits(Conflict) || OnePerOrder(acts)
    ensures NoWaste(Exec(w, acts), |w.ended|)
  {
    ReachableInv(w);
    if !w.policy.Commits(Conflict) {
      RollbackWastesNothing(w, acts);
    } else {
      DistinctConfirmsNeverConflict(w, acts);
    }
  }

  lemma SubsetSize(a: set<OrderId>, b: set<OrderId>)
    requires a <= b
    ensures |a| <= |b|
  {
    assert b == a + (b - a);
  }
}
