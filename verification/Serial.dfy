/** One request after the other: no conflicts, all or nothing, and a cache that cannot be noticed. */
module Serial {
  import opened Domain
  import opened Spec
  import opened Machine
  import opened Safety

  // ---- All or nothing ----

  /** What an atomic request that is refused leaves: the tables as they were, except that a confirm
      refused for its stock has rejected the order, if the policy commits that. */
  predicate OnlyRejects(policy: Policy, db: Db, db': Db, req: Request, outcome: Outcome) {
    if req.Confirm? && outcome == InsufficientStock && InsufficientStock in policy.mapped then
      && req.order in db.orders && db.orders[req.order].status == Pending
      && var o := db.orders[req.order];
         db' == Db(db.items, db.orders[req.order := Order(o.item, o.quantity, Rejected, 2)], db.ledger)
    else db' == db
  }

  lemma RefusalPlansNothing(policy: Policy, db: Db, req: Request)
    requires DbOk(db) && Plan(db, req).outcome != Success
    ensures OnlyRejects(policy, db, Atomic(policy, db, req), req, Plan(db, req).outcome)
  {
    assert Apply(db, NOTHING) == db;
  }

  /** The way an order request moves the status. */
  predicate Moves(req: Request, from: Status, to: Status) {
    && (req.Confirm? ==> from == Pending && to == Confirmed)
    && (req.Ship? ==> from == Confirmed && to == Shipped)
    && (req.Deliver? ==> from == Shipped && to == Delivered)
    && (req.Cancel? ==> from in {Pending, Confirmed, Shipped} && to == Cancelled)
  }

  /** An order request that succeeds alone has its whole effect and no other: the order moves to the
      requested status, and stock moves with a matching movement exactly when the order starts or
      stops holding it. */
  lemma AllOnSuccess(policy: Policy, db: Db, req: Request)
    requires DbOk(db) && req.OnOrder() && Plan(db, req).outcome == Success
    ensures req.order in db.orders
    ensures var o, db' := db.orders[req.order], Atomic(policy, db, req);
            && o.status.CanTransitionTo(req.Target())
            && db'.orders == db.orders[req.order := NewStatus(o, req.Target())]
            && Moves(req, o.status, db'.orders[req.order].status)
            && (if (o.status in STOCK_HOLDING_STATES) == (req.Target() in STOCK_HOLDING_STATES)
                then db'.items == db.items && db'.ledger == db.ledger
                else if req.Target() in STOCK_HOLDING_STATES
                then MovedOnly(db, db', o.item, Some(req.order), Deduction, -o.quantity)
                else MovedOnly(db, db', o.item, Some(req.order), Restoration, o.quantity))
  {
    var o := db.orders[req.order];
    assert ItemOk(db.items[o.item]);
    TransitionTable(o.status, req.Target());
  }

  /** Exactly one item has changed, by delta, and exactly one movement says so. */
  predicate MovedOnly(db: Db, db': Db, i: ItemId, order: Option<OrderId>, kind: MovementType, delta: int) {
    && i in db.items && i in db'.items
    && db'.items == db.items[i := db'.items[i]]
    && db'.items[i].stock == db.items[i].stock + delta >= 0
    && db'.items[i].version == db.items[i].version + 1
    && db'.ledger == db.ledger + [Movement(i, order, kind, delta, db.items[i].stock, db'.items[i].stock)]
  }

  // ---- The cache, serially ----

  datatype Shop = Shop(db: Db, cache: map<ItemId, int>)

  datatype Served = Served(shop: Shop, reply: Reply)

  function Hit(on: bool, cache: map<ItemId, int>, i: ItemId, fails: bool): Option<int> {
    if on && !fails && i in cache then Some(cache[i]) else None
  }

  /** The cache after the set_stock of a request that flushed a stock. */
  function CacheWith(on: bool, cache: map<ItemId, int>, writes: Writes, lost: bool): map<ItemId, int> {
    if writes.item.Some? && on && !lost then cache[writes.item.value.key := writes.item.value.row.stock] else cache
  }

  /** One whole request: service method, cache and get_db. A glitch fails the cache read of
      get_stock and loses the set_stock of the other requests. */
  function Serve(policy: Policy, on: bool, shop: Shop, req: Request, glitch: bool): Served {
    var db := shop.db;
    var plan := Plan(db, req);
    if req.GetStock? then
      if req.item !in db.items then Served(shop, Reply(NotFound, None))
      else
        var row, hit := db.items[req.item], Hit(on, shop.cache, req.item, glitch);
        var quantity := if hit.Some? then hit.value else row.stock;
        Served(Shop(db.(items := db.items[req.item := row.(stock := quantity)]), shop.cache),
               Reply(Success, Some(quantity)))
    else
      Served(Shop(Atomic(policy, db, req), CacheWith(on, shop.cache, plan.writes, glitch)), Reply(plan.outcome, None))
  }

  /** Every cached quantity is the committed one. */
  ghost predicate Agrees(db: Db, cache: map<ItemId, int>) {
    forall i | i in cache :: i in db.items && cache[i] == db.items[i].stock
  }

  // ---- The engine, serially ----

  /** One request, its statements, and cache entries that expire meanwhile or afterwards. */
  ghost predicate Solo(acts: seq<Action>, t: Tid, req: Request) {
    forall k | 0 <= k < |acts| ::
      if k == 0 then acts[k] == Begin(t, req) else acts[k].Expire? || (acts[k].Step? && acts[k].tid == t)
  }

  ghost predicate NoExpiry(acts: seq<Action>) {
    forall a | a in acts :: !a.Expire?
  }

  ghost predicate Glitched(acts: seq<Action>) {
    exists a :: a in acts && a.Step? && a.glitch
  }

  /** The cache is the expected one, up to entries that have expired. */
  ghost predicate Kept(exact: bool, cache: map<ItemId, int>, expected: map<ItemId, int>) {
    && (forall i | i in cache :: i in expected && cache[i] == expected[i])
    && (exact ==> cache == expected)
  }

  /** A get_stock that runs alone goes by its cache lookup, if it hits. */
  predicate ReadsAlone(w: World, tx: Tx, g: bool)
    requires tx.req.GetStock?
  {
    var i := tx.req.item;
    var hit := Hit(w.cacheOn, w.cache, i, g);
    match tx.phase
    case Fetching(h) => h == hit
    case WritingBack(quantity) => hit == Some(quantity)
    case Ending(outcome) =>
      if i !in w.db.items then outcome == NotFound
      else
        var quantity := if hit.Some? then hit.value else w.db.items[i].stock;
        && outcome == Success && tx.quantity == Some(quantity)
        && Apply(w.db, tx.writes) == w.db.(items := w.db.items[i := w.db.items[i].(stock := quantity)])
    case _ => true
  }

  /** Another request that runs alone sees no row change under it. */
  ghost predicate WritesAlone(w: World, cache: map<ItemId, int>, tx: Tx, g: bool, exact: bool) {
    && (tx.order.Some? ==>
          tx.req.OnOrder() && tx.req.order in w.db.orders && tx.order.value == w.db.orders[tx.req.order])
    && (tx.phase.Ending? ==> tx.phase.outcome == Plan(w.db, tx.req).outcome)
    && Kept(exact, cache, if tx.phase.Caching? then w.cache else CacheWith(w.cacheOn, w.cache, tx.writes, g))
  }

  ghost predicate Alone(w: World, cache: map<ItemId, int>, tx: Tx, g: bool, exact: bool) {
    if tx.req.GetStock? then ReadsAlone(w, tx, g) && Kept(exact, cache, w.cache)
    else WritesAlone(w, cache, tx, g, exact)
  }

  /** The request has been served, with or without a glitch. */
  ghost predicate ServedAs(w: World, w': World, req: Request, g: bool, exact: bool) {
    var served := Serve(w.policy, w.cacheOn, Shop(w.db, w.cache), req, g);
    && w'.db == served.shop.db
    && Kept(exact, w'.cache, served.shop.cache)
    && |w'.ended| == |w.ended| + 1 && w'.ended[..|w.ended|] == w.ended
    && var e := w'.ended[|w.ended|]; e.req == req && Reply(e.outcome, e.quantity) == served.reply
  }

  /** The state of a solo run: the request is under way on unchanged tables, or has been served. */
  ghost predicate Underway(w: World, w': World, t: Tid, req: Request, g: bool, exact: bool) {
    && w'.policy == w.policy && w'.cacheOn == w.cacheOn
    && if t in w'.txs then
         && w'.txs == map[t := w'.txs[t]] && w'.db == w.db && w'.ended == w.ended
         && w'.txs[t].req == req && Alone(w, w'.cache, w'.txs[t], g, exact)
       else
         w'.txs == map[] && ServedAs(w, w', req, g, exact)
  }

  lemma EndsOnPlan(db: Db, tx: Tx)
    requires DbOk(db) && TxOk(db, tx) && tx.phase.Ending? && !tx.req.GetStock?
    requires tx.phase.outcome == Plan(db, tx.req).outcome
    ensures tx.writes == Plan(db, tx.req).writes && tx.quantity.None?
  {
  }

  lemma UnderwayEnds(w: World, w': World, t: Tid, req: Request, g: bool, exact: bool)
    requires DbOk(w'.db) && Underway(w, w', t, req, g, exact)
    requires t in w'.txs && TxOk(w'.db, w'.txs[t]) && w'.txs[t].phase.Ending?
    ensures Underway(w, Finish(w', t), t, req, g, exact)
  {
    assert w'.txs - {t} == map[];
    if req.GetStock? {
      assert Apply(w.db, NOTHING) == w.db;
    } else {
      EndsOnPlan(w.db, w'.txs[t]);
    }
  }

  lemma WriterStaysOnPlan(db: Db, hit: Option<int>, tx: Tx)
    requires DbOk(db) && TxOk(db, tx) && !tx.req.GetStock? && !tx.phase.Ending?
    requires tx.order.Some? ==>
               tx.req.OnOrder() && tx.req.order in db.orders && tx.order.value == db.orders[tx.req.order]
    ensures var tx' := Advance(db, hit, tx);
            && tx'.req == tx.req
            && (tx'.order.Some? ==>
                  tx.req.OnOrder() && tx.req.order in db.orders && tx'.order.value == db.orders[tx.req.order])
            && (tx'.phase.Ending? ==> tx'.phase.outcome == Plan(db, tx.req).outcome)
  {
  }

  /** A stock is flushed just before the set_stock, and never changed again. */
  lemma StockIsFlushedForCaching(db: Db, hit: Option<int>, tx: Tx)
    requires DbOk(db) && TxOk(db, tx) && !tx.req.GetStock? && !tx.phase.Ending?
    ensures var tx' := Advance(db, hit, tx);
            && (tx.phase.Caching? ==> tx.writes.item.Some? && !tx'.phase.Caching?)
            && if tx'.phase.Caching? then tx.writes.item.None? else tx'.writes.item == tx.writes.item
  {
  }

  lemma WriterAdvances(w: World, w': World, tx: Tx, g: bool, exact: bool, glitch: bool)
    requires DbOk(w.db) && TxOk(w.db, tx) && !tx.req.GetStock? && !tx.phase.Ending?
    requires w'.cacheOn == w.cacheOn && WritesAlone(w, w'.cache, tx, g, exact)
    ensures var g' := if tx.phase.Caching? then glitch else g;
            WritesAlone(w, CacheAfter(w', tx, glitch), Advance(w.db, Lookup(w', tx.req, glitch), tx), g', exact)
  {
    WriterStaysOnPlan(w.db, Lookup(w', tx.req, glitch), tx);
    StockIsFlushedForCaching(w.db, Lookup(w', tx.req, glitch), tx);
  }

  lemma ReaderAdvances(w: World, tx: Tx, hit: Option<int>, g: bool)
    requires DbOk(w.db) && TxOk(w.db, tx) && tx.req.GetStock? && !tx.phase.Ending? && ReadsAlone(w, tx, g)
    requires tx.phase.Reading? ==> hit == Hit(w.cacheOn, w.cache, tx.req.item, g)
    ensures ReadsAlone(w, Advance(w.db, hit, tx), g)
  {
    if tx.req.item in w.db.items {
      assert w.db.items[tx.req.item := w.db.items[tx.req.item]] == w.db.items;
    }
  }

  /** The statement that uses the cache decides with which glitch the request is served. */
  lemma UnderwayAdvances(w: World, w': World, t: Tid, req: Request, g: bool, exact: bool, glitch: bool)
    returns (g': bool)
    requires DbOk(w'.db) && Underway(w, w', t, req, g, exact) && Enabled(w', Step(t, glitch))
    requires TxOk(w'.db, w'.txs[t]) && !w'.txs[t].phase.Ending?
    ensures Underway(w, Next(w', Step(t, glitch)), t, req, g', exact)
    ensures g' ==> g || glitch || (req.GetStock? && !exact)
  {
    var tx, w'' := w'.txs[t], Next(w', Step(t, glitch));
    assert w'.txs[t := w''.txs[t]] == map[t := w''.txs[t]];
    AdvanceAcquires(w.db, Lookup(w', req, glitch), tx);
    if req.GetStock? {
      g' := if tx.phase.Reading? then Lookup(w', req, glitch) != Hit(w.cacheOn, w.cache, req.item, false) else g;
      ReaderAdvances(w, tx, Lookup(w', req, glitch), g');
    } else {
      g' := if tx.phase.Caching? then glitch else g;
      WriterAdvances(w, w', tx, g, exact, glitch);
    }
  }

  lemma UnderwayExpires(w: World, w': World, t: Tid, req: Request, g: bool, i: ItemId)
    requires Underway(w, w', t, req, g, false)
    ensures Underway(w, Next(w', Expire(i)), t, req, g, false)
  {
  }

  lemma {:induction false} SoloRuns(w: World, t: Tid, req: Request, acts: seq<Action>, exact: bool) returns (g: bool)
    requires Inv(w) && w.txs == map[] && Runnable(w, acts) && Solo(acts, t, req) && acts != []
    requires exact ==> NoExpiry(acts)
    ensures Underway(w, Exec(w, acts), t, req, g, exact)
    ensures g ==> Glitched(acts) || (req.GetStock? && !exact)
    decreases |acts|
  {
    var prefix, a := acts[..|acts| - 1], acts[|acts| - 1];
    if prefix == [] {
      g := false;
      assert acts[0] == Begin(t, req) && Exec(w, prefix) == w;
    } else {
      assert prefix[0] == acts[0];
      g := SoloRuns(w, t, req, prefix, exact);
      ExecKeepsInv(w, prefix);
      g := UnderwayGoesOn(w, Exec(w, prefix), t, req, g, exact, a);
    }
  }

  lemma UnderwayGoesOn(w: World, w': World, t: Tid, req: Request, g: bool, exact: bool, a: Action)
    returns (g': bool)
    requires Inv(w') && Underway(w, w', t, req, g, exact) && Enabled(w', a)
    requires (a.Expire? && !exact) || (a.Step? && a.tid == t)
    ensures Underway(w, Next(w', a), t, req, g', exact)
    ensures g' ==> g || (a.Step? && a.glitch) || (req.GetStock? && !exact)
  {
    g' := g;
    if a.Expire? {
      UnderwayExpires(w, w', t, req, g, a.item);
    } else {
      assert TxOk(w'.db, w'.txs[t]);
      if w'.txs[t].phase.Ending? {
        UnderwayEnds(w, w', t, req, g, exact);
      } else {
        g' := UnderwayAdvances(w, w', t, req, g, exact, a.glitch);
      }
    }
  }

  /** A request of the engine whose statements nobody interrupts ends in the tables, the cache and the
      reply of Serve; the cache may have lost entries that expired. It is served with a glitch only if
      the run has one, or if it reads the cache after an entry has expired. */
  lemma SoloServes(w: World, t: Tid, req: Request, acts: seq<Action>) returns (g: bool)
    requires Inv(w) && w.txs == map[] && Runnable(w, acts) && Solo(acts, t, req) && acts != []
    requires Exec(w, acts).txs == map[]
    ensures ServedAs(w, Exec(w, acts), req, g, NoExpiry(acts))
    ensures g ==> Glitched(acts) || (req.GetStock? && !NoExpiry(acts))
  {
    g := SoloRuns(w, t, req, acts, NoExpiry(acts));
  }

  /** It never ends in ConflictError, and has the effect and the reply of the atomic request; a
      get_stock does as long as the cache agrees with the tables. */
  lemma SerialNeverConflicts(w: World, t: Tid, req: Request, acts: seq<Action>)
    requires Reachable(w) && w.txs == map[] && Runnable(w, acts) && Solo(acts, t, req) && acts != []
    requires Exec(w, acts).txs == map[]
    ensures var w' := Exec(w, acts);
            && |w'.ended| == |w.ended| + 1
            && var e := w'.ended[|w.ended|];
               && e.outcome == Plan(w.db, req).outcome != Conflict
               && ((req.GetStock? ==> Agrees(w.db, w.cache)) ==>
                     w'.db == Atomic(w.policy, w.db, req) && Reply(e.outcome, e.quantity) == Answer(w.db, req))
  {
    ReachableInv(w);
    var g := SoloServes(w, t, req, acts);
    assert Apply(w.db, NOTHING) == w.db;
    if req.GetStock? && req.item in w.db.items {
      assert w.db.items[req.item := w.db.items[req.item]] == w.db.items;
    }
  }

  /** If it is refused, it leaves the tables as they were, except for the committed rejection of its order. */
  lemma NothingOnRefusal(w: World, t: Tid, req: Request, acts: seq<Action>)
    requires Reachable(w) && w.txs == map[] && Runnable(w, acts) && Solo(acts, t, req) && acts != []
    requires Exec(w, acts).txs == map[]
    ensures var w' := Exec(w, acts);
            && |w'.ended| == |w.ended| + 1
            && var outcome := w'.ended[|w.ended|].outcome;
               && outcome != Conflict
               && (outcome != Success ==> OnlyRejects(w.policy, w.db, w'.db, req, outcome))
  {
    SerialNeverConflicts(w, t, req, acts);
    ReachableInv(w);
    var g := SoloServes(w, t, req, acts);
    if Plan(w.db, req).outcome != Success {
      RefusalPlansNothing(w.policy, w.db, req);
    }
  }

  // ---- The cache, serially ----

  datatype Event = Call(req: Request, glitch: bool) | Expiry(item: ItemId)

  /** A shop that serves events one after the other, and the replies so far. */
  datatype Day = Day(shop: Shop, replies: seq<Reply>)

  function Serving(policy: Policy, on: bool, shop: Shop, events: seq<Event>): Day {
    if events == [] then Day(shop, [])
    else
      var before := Serving(policy, on, shop, events[..|events| - 1]);
      match events[|events| - 1]
      case Call(req, glitch) =>
        var served := Serve(policy, on, before.shop, req, glitch);
        Day(served.shop, before.replies + [served.reply])
      case Expiry(i) => before.(shop := before.shop.(cache := before.shop.cache - {i}))
  }

  /** No set_stock is lost; cache reads may fail. */
  predicate NoLostSet(e: Event) {
    e.Call? && e.glitch ==> e.req.GetStock?
  }

  /** With a cache that agrees, serving with and without it is the same, and it agrees afterwards;
      in particular get_stock writes back what is there. */
  lemma ServeTransparently(policy: Policy, on: Shop, off: Shop, req: Request, glitch: bool)
    requires Agrees(on.db, on.cache) && on.db == off.db && NoLostSet(Call(req, glitch))
    ensures var a, b := Serve(policy, true, on, req, glitch), Serve(policy, false, off, req, glitch);
            && a.reply == b.reply && a.shop.db == b.shop.db && Agrees(a.shop.db, a.shop.cache)
            && (req.GetStock? ==> a.shop.db == on.db)
  {
    if req.GetStock? && req.item in on.db.items {
      assert on.db.items[req.item := on.db.items[req.item]] == on.db.items;
    }
  }

  /** Cache transparency: whatever expires and whichever reads fail, a serial run with the cache
      gives the same replies and the same tables as the run with CacheService(None). */
  lemma {:induction false} CacheTransparency(policy: Policy, shop: Shop, off: Shop, events: seq<Event>)
    requires Agrees(shop.db, shop.cache) && off.db == shop.db
    requires forall e | e in events :: NoLostSet(e)
    ensures var a, b := Serving(policy, true, shop, events), Serving(policy, false, off, events);
            a.replies == b.replies && a.shop.db == b.shop.db && Agrees(a.shop.db, a.shop.cache)
    decreases |events|
  {
    if events != [] {
      var prefix, e := events[..|events| - 1], events[|events| - 1];
      CacheTransparency(policy, shop, off, prefix);
      assert NoLostSet(e);
      if e.Call? {
        ServeTransparently(policy, Serving(policy, true, shop, prefix).shop, Serving(policy, false, off, prefix).shop,
                           e.req, e.glitch);
      }
    }
  }

  /** The hypothesis is needed: if the set_stock of an adjustment is lost, the next cache hit of
      get_stock undoes the adjustment in the table, and the ledger no longer matches it. */
  lemma LostSetUndoesAdjustment(policy: Policy, shop: Shop, i: ItemId, delta: int)
    requires Agrees(shop.db, shop.cache) && i in shop.cache && delta != 0 && shop.db.items[i].stock + delta >= 0
    ensures var day := Serving(policy, true, shop, [Call(AdjustStock(i, delta), true), Call(GetStock(i), false)]);
            && day.replies == [Reply(Success, None), Reply(Success, Some(shop.db.items[i].stock))]
            && i in day.shop.db.items
            && day.shop.db.items[i].stock == shop.db.items[i].stock
            && |day.shop.db.ledger| == |shop.db.ledger| + 1
            && day.shop.db.ledger[|shop.db.ledger|].after == shop.db.items[i].stock + delta
  {
    var events := [Call(AdjustStock(i, delta), true), Call(GetStock(i), false)];
    assert events[..1] == [events[0]] && [events[0]][..0] == [];
    var served := Serve(policy, true, shop, AdjustStock(i, delta), true);
    assert Serving(policy, true, shop, [events[0]]) == Day(served.shop, [] + [served.reply]);
  }

  // ---- The engine, one request after the other ----

  /** The run loses no set_stock of a mutating request. */
  ghost predicate Lossless(acts: seq<Action>, req: Request) {
    req.GetStock? || forall a | a in acts && a.Step? :: !a.glitch
  }

  /** Some undisturbed run of the engine serves req from w to w'. */
  ghost predicate Handles(w: World, w': World, req: Request) {
    exists t, acts ::
      && Runnable(w, acts) && Solo(acts, t, req) && acts != [] && Lossless(acts, req)
      && Exec(w, acts) == w' && w'.txs == map[]
  }

  /** The engine serves the requests one after the other. */
  ghost predicate HandlesAll(w: World, w': World, reqs: seq<Request>)
    decreases |reqs|, 0
  {
    if reqs == [] then w' == w else HandlesThen(w, w', reqs[..|reqs| - 1], reqs[|reqs| - 1])
  }

  ghost predicate HandlesThen(w: World, w': World, reqs: seq<Request>, req: Request)
    decreases |reqs|, 1
  {
    exists mid :: HandlesAll(w, mid, reqs) && Handles(mid, w', req)
  }

  /** The events are these requests, with glitches that lose no set_stock. */
  predicate AreCalls(events: seq<Event>, reqs: seq<Request>) {
    && |events| == |reqs|
    && forall k | 0 <= k < |reqs| :: events[k].Call? && events[k].req == reqs[k] && NoLostSet(events[k])
  }

  /** The replies to the requests that have ended since. */
  function RepliesSince(w: World, w': World): seq<Reply>
    requires |w.ended| <= |w'.ended|
  {
    seq(|w'.ended| - |w.ended|, k requires 0 <= k < |w'.ended| - |w.ended| =>
      Reply(w'.ended[|w.ended| + k].outcome, w'.ended[|w.ended| + k].quantity))
  }

  ghost predicate LivedAs(w: World, w': World, day: Day) {
    && w'.db == day.shop.db && Kept(false, w'.cache, day.shop.cache)
    && |w.ended| <= |w'.ended| && RepliesSince(w, w') == day.replies
    && w'.policy == w.policy && w'.cacheOn == w.cacheOn && w'.txs == map[] && Inv(w')
  }

  /** One more request has been served, and the cache may have lost entries of the shop's. */
  ghost predicate ServedLike(w: World, w': World, shop: Shop, req: Request, g: bool) {
    var served := Serve(w.policy, w.cacheOn, shop, req, g);
    && w'.db == served.shop.db && Kept(false, w'.cache, served.shop.cache)
    && |w'.ended| == |w.ended| + 1 && w'.ended[..|w.ended|] == w.ended
    && Reply(w'.ended[|w.ended|].outcome, w'.ended[|w.ended|].quantity) == served.reply
  }

  /** An entry that has expired is as good as a failed cache read. */
  lemma ServedWithMore(w: World, w': World, shop: Shop, req: Request, g: bool) returns (g': bool)
    requires w.db == shop.db && Kept(false, w.cache, shop.cache)
    requires ServedAs(w, w', req, g, false)
    ensures ServedLike(w, w', shop, req, g')
    ensures !req.GetStock? ==> g' == g
  {
    g' := if req.GetStock? then Hit(w.cacheOn, w.cache, req.item, g).None? else g;
  }

  lemma HandlesAsCall(w: World, w': World, shop: Shop, req: Request) returns (g: bool)
    requires Inv(w) && w.txs == map[] && Handles(w, w', req)
    requires w.db == shop.db && Kept(false, w.cache, shop.cache)
    ensures NoLostSet(Call(req, g)) && ServedLike(w, w', shop, req, g)
    ensures w'.policy == w.policy && w'.cacheOn == w.cacheOn && w'.txs == map[] && Inv(w')
  {
    var t, acts :| && Runnable(w, acts) && Solo(acts, t, req) && acts != [] && Lossless(acts, req)
                   && Exec(w, acts) == w' && w'.txs == map[];
    ExecKeepsInv(w, acts);
    g := SoloServes(w, t, req, acts);
    g := ServedWithMore(w, w', shop, req, g);
  }

  /** One more call. */
  lemma LivesOn(w: World, mid: World, w': World, policy: Policy, on: bool, shop: Shop, before: seq<Event>, req: Request,
                g: bool)
    requires mid.policy == policy && mid.cacheOn == on && |w.ended| <= |mid.ended|
    requires var day := Serving(policy, on, shop, before);
             RepliesSince(w, mid) == day.replies && ServedLike(mid, w', day.shop, req, g)
    ensures |w.ended| <= |w'.ended|
    ensures var day := Serving(policy, on, shop, before + [Call(req, g)]);
            && RepliesSince(w, w') == day.replies
            && w'.db == day.shop.db && Kept(false, w'.cache, day.shop.cache)
  {
    var last := w'.ended[|mid.ended|];
    assert (before + [Call(req, g)])[..|before|] == before;
    assert forall k | 0 <= k < |mid.ended| :: w'.ended[k] == w'.ended[..|mid.ended|][k];
    assert RepliesSince(w, w') == RepliesSince(w, mid) + [Reply(last.outcome, last.quantity)];
  }

  /** Requests that the engine serves one after the other are served as Serving does, up to entries
      that have expired. */
  lemma {:induction false} HandlesAsServing(w: World, w': World, reqs: seq<Request>) returns (events: seq<Event>)
    requires Inv(w) && w.txs == map[] && HandlesAll(w, w', reqs)
    ensures AreCalls(events, reqs)
    ensures LivedAs(w, w', Serving(w.policy, w.cacheOn, Shop(w.db, w.cache), events))
    decreases |reqs|
  {
    events := [];
    if reqs == [] {
    } else {
      var earlier, req, shop := reqs[..|reqs| - 1], reqs[|reqs| - 1], Shop(w.db, w.cache);
      var mid :| HandlesAll(w, mid, earlier) && Handles(mid, w', req);
      var before := HandlesAsServing(w, mid, earlier);
      var g := HandlesAsCall(mid, w', Serving(w.policy, w.cacheOn, shop, before).shop, req);
      LivesOn(w, mid, w', w.policy, w.cacheOn, shop, before, req, g);
      events := before + [Call(req, g)];
      CallsGrow(before, earlier, req, g);
      assert reqs == earlier + [req];
    }
  }

  lemma CallsGrow(events: seq<Event>, reqs: seq<Request>, req: Request, g: bool)
    requires AreCalls(events, reqs) && NoLostSet(Call(req, g))
    ensures AreCalls(events + [Call(req, g)], reqs + [req])
  {
  }

  /** Without a cache, glitches cannot be noticed. */
  lemma {:induction false} GlitchesWithoutCache(policy: Policy, shop: Shop, a: seq<Event>, b: seq<Event>,
                                                reqs: seq<Request>)
    requires AreCalls(a, reqs) && AreCalls(b, reqs)
    ensures Serving(policy, false, shop, a) == Serving(policy, false, shop, b)
    decreases |reqs|
  {
    if reqs != [] {
      var n := |reqs| - 1;
      GlitchesWithoutCache(policy, shop, a[..n], b[..n], reqs[..n]);
    }
  }

  /** Cache transparency of the engine: two engines on the same tables, one with a cache that agrees
      and one without, serve the same requests one after the other with the same replies and leave the
      same tables, and the cache agrees again; entries may expire and cache reads fail. */
  lemma EngineTransparency(w: World, w': World, v: World, v': World, reqs: seq<Request>)
    requires Inv(w) && w.txs == map[] && w.cacheOn && Agrees(w.db, w.cache) && HandlesAll(w, w', reqs)
    requires Inv(v) && v.txs == map[] && !v.cacheOn && v.db == w.db && v.policy == w.policy && HandlesAll(v, v', reqs)
    ensures |w.ended| <= |w'.ended| && |v.ended| <= |v'.ended| && RepliesSince(w, w') == RepliesSince(v, v')
    ensures w'.db == v'.db && Agrees(w'.db, w'.cache)
  {
    var on, off := Shop(w.db, w.cache), Shop(v.db, v.cache);
    var a := HandlesAsServing(w, w', reqs);
    var b := HandlesAsServing(v, v', reqs);
    forall e | e in a ensures NoLostSet(e) {
      var k :| 0 <= k < |a| && a[k] == e;
    }
    CacheTransparency(w.policy, on, off, a);
    GlitchesWithoutCache(w.policy, off, a, b, reqs);
  }
}
