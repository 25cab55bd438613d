/** The cache while requests interleave. It is written before the commit, so it runs ahead of the
    tables while a writer is open, and agrees with them again when the writer has committed. A
    get_stock that compares a cached quantity with its row before the next writer comes writes
    nothing back. */
module Coherence {
  import opened Domain
  import opened Spec
  import opened Machine
  import opened Safety

  /** The transaction has flushed a new stock for item i. */
  predicate Wrote(tx: Tx, i: ItemId) {
    tx.writes.item.Some? && tx.writes.item.value.key == i
  }

  /** ... and has called set_stock for it. */
  predicate Published(tx: Tx, i: ItemId) {
    Wrote(tx, i) && !tx.phase.Caching?
  }

  /** A request that changes the stock of item i, rather than a get_stock that writes it back. */
  predicate Writer(tx: Tx, i: ItemId) {
    Wrote(tx, i) && !tx.req.GetStock?
  }

  /** A get_stock of item i that has a cached quantity and has not yet compared it with the row. */
  predicate HoldsHit(tx: Tx, i: ItemId) {
    tx.req == GetStock(i) && tx.phase.Fetching? && tx.phase.hit.Some?
  }

  ghost predicate Apart(w: World, i: ItemId) {
    forall t, u | t in w.txs && u in w.txs :: !(HoldsHit(w.txs[t], i) && Writer(w.txs[u], i))
  }

  /** While there is a cache: no set_stock of item i is lost, no transaction rolls back after its
      set_stock of item i, and no writer of item i is open while a get_stock holds a hit for it. */
  ghost predicate Gentle(w: World, a: Action, i: ItemId)
    requires Enabled(w, a)
  {
    w.cacheOn ==>
      && Apart(Next(w, a), i)
      && match a
         case Step(t, glitch) =>
           var tx := w.txs[t];
           Writer(tx, i) ==>
             && (tx.phase.Caching? ==> !glitch)
             && (tx.phase.Ending? ==> w.policy.Commits(tx.phase.outcome))
         case Abort(t) => Writer(w.txs[t], i) ==> w.txs[t].phase.Caching?
         case _ => true
  }

  ghost predicate GentleRun(w: World, acts: seq<Action>, i: ItemId)
    requires Runnable(w, acts)
    decreases |acts|
  {
    acts == [] ||
    (GentleRun(w, acts[..|acts| - 1], i) && Gentle(Exec(w, acts[..|acts| - 1]), acts[|acts| - 1], i))
  }

  // ---- The invariant of a gentle run ----

  ghost predicate EntryOk(w: World, i: ItemId) {
    i in w.cache ==>
      && (forall t | t in w.txs && Published(w.txs[t], i) :: w.cache[i] == w.txs[t].writes.item.value.row.stock)
      && ((forall t | t in w.txs :: !Published(w.txs[t], i)) ==> i in w.db.items && w.cache[i] == w.db.items[i].stock)
  }

  ghost predicate CacheOk(w: World, i: ItemId) {
    && (!w.cacheOn ==> w.cache == map[])
    && EntryOk(w, i)
  }

  /** A get_stock of item i has nothing to write back. */
  predicate ReadOk(on: bool, db: Db, tx: Tx, i: ItemId) {
    tx.req == GetStock(i) ==>
      && tx.writes == NOTHING && !tx.phase.WritingBack?
      && (HoldsHit(tx, i) ==> on && i in db.items && tx.phase.hit.value == db.items[i].stock)
  }

  ghost predicate ReadsOk(w: World, i: ItemId) {
    forall t | t in w.txs :: ReadOk(w.cacheOn, w.db, w.txs[t], i)
  }

  /** No write-back has moved the committed stock of item i. */
  ghost predicate NoDrift(w: World, i: ItemId) {
    forall e | e in w.ended && e.req == GetStock(i) :: e.drift == 0
  }

  ghost predicate Calm(w: World, i: ItemId) {
    && CacheOk(w, i)
    && ReadsOk(w, i)
    && (w.cacheOn ==> Apart(w, i))
    && NoDrift(w, i)
  }

  // ---- Entries ----

  /** The writer of an item is alone with it. */
  lemma WriterIsAlone(w: World, t: Tid, u: Tid, i: ItemId)
    requires Inv(w) && t in w.txs && u in w.txs && Wrote(w.txs[t], i) && Wrote(w.txs[u], i)
    ensures t == u
  {
    WrittenRowIsLocked(w.db, w.txs[t]);
    WrittenRowIsLocked(w.db, w.txs[u]);
    assert t == u || Compatible(w.txs[t], w.txs[u]);
  }

  lemma OthersHaveNotWritten(w: World, t: Tid, i: ItemId)
    requires Inv(w) && t in w.txs && Wrote(w.txs[t], i)
    ensures forall u | u in w.txs && u != t :: !Wrote(w.txs[u], i)
  {
    forall u | u in w.txs && u != t ensures !Wrote(w.txs[u], i) {
      if Wrote(w.txs[u], i) {
        WriterIsAlone(w, t, u, i);
      }
    }
  }

  /** The stock that transaction t, if it is open, has published for item i. */
  function PublishedBy(txs: map<Tid, Tx>, t: Tid, i: ItemId): Option<int> {
    if t in txs && Published(txs[t], i) then Some(txs[t].writes.item.value.row.stock) else None
  }

  /** An entry stays right if what each transaction has published for it, the entry and the
      committed stock stay the same. */
  lemma EntryStays(w: World, w': World, i: ItemId)
    requires EntryOk(w, i)
    requires i in w'.cache ==> i in w.cache && w'.cache[i] == w.cache[i]
    requires i in w.db.items ==> i in w'.db.items && w'.db.items[i].stock == w.db.items[i].stock
    requires forall u :: PublishedBy(w'.txs, u, i) == PublishedBy(w.txs, u, i)
    ensures EntryOk(w', i)
  {
    if i in w'.cache {
      forall u | u in w'.txs && Published(w'.txs[u], i) ensures w'.cache[i] == w'.txs[u].writes.item.value.row.stock {
        assert PublishedBy(w'.txs, u, i) == PublishedBy(w.txs, u, i);
      }
      if forall u | u in w'.txs :: !Published(w'.txs[u], i) {
        forall u | u in w.txs ensures !Published(w.txs[u], i) {
          assert PublishedBy(w'.txs, u, i) == PublishedBy(w.txs, u, i);
        }
      }
    }
  }

  lemma CachingHasWritten(db: Db, tx: Tx)
    requires TxOk(db, tx) && tx.phase.Caching?
    ensures tx.writes.item.Some? && !tx.req.GetStock?
    ensures Advance(db, None, tx).writes == tx.writes && !Advance(db, None, tx).phase.Caching?
  {
  }

  /** set_stock publishes the flushed stock of its own item. */
  lemma CachingKeeps(w: World, t: Tid, glitch: bool, i: ItemId)
    requires Inv(w) && CacheOk(w, i) && t in w.txs && w.txs[t].phase.Caching?
    requires Enabled(w, Step(t, glitch)) && Gentle(w, Step(t, glitch), i)
    ensures CacheOk(Next(w, Step(t, glitch)), i)
  {
    var tx, w' := w.txs[t], Next(w, Step(t, glitch));
    CachingHasWritten(w.db, tx);
    if Wrote(tx, i) {
      OthersHaveNotWritten(w, t, i);
      assert Published(w'.txs[t], i);
    } else {
      EntryStays(w, w', i);
    }
  }

  /** The other statements publish nothing. */
  lemma AdvancePublishesNothing(on: bool, db: Db, hit: Option<int>, tx: Tx, i: ItemId)
    requires TxOk(db, tx) && !tx.phase.Ending? && !tx.phase.Caching? && ReadOk(on, db, tx, i)
    ensures var tx' := Advance(db, hit, tx);
            Published(tx', i) == Published(tx, i) && (Published(tx, i) ==> tx'.writes.item == tx.writes.item)
  {
  }

  lemma AdvanceKeeps(w: World, t: Tid, glitch: bool, i: ItemId)
    requires Inv(w) && CacheOk(w, i) && ReadsOk(w, i) && t in w.txs
    requires !w.txs[t].phase.Ending? && !w.txs[t].phase.Caching? && Enabled(w, Step(t, glitch))
    ensures CacheOk(Next(w, Step(t, glitch)), i)
  {
    assert TxOk(w.db, w.txs[t]);
    AdvancePublishesNothing(w.cacheOn, w.db, Lookup(w, w.txs[t].req, glitch), w.txs[t], i);
    EntryStays(w, Next(w, Step(t, glitch)), i);
  }

  lemma EndKeeps(w: World, t: Tid, i: ItemId)
    requires Inv(w) && CacheOk(w, i) && ReadsOk(w, i) && t in w.txs && w.txs[t].phase.Ending?
    requires w.cacheOn && Writer(w.txs[t], i) ==> w.policy.Commits(w.txs[t].phase.outcome)
    ensures CacheOk(Finish(w, t), i)
  {
    var tx, w' := w.txs[t], Finish(w, t);
    assert TxOk(w.db, tx);
    if Wrote(tx, i) {
      OthersHaveNotWritten(w, t, i);
    } else {
      EntryStays(w, w', i);
    }
  }

  lemma OthersKeep(w: World, a: Action, i: ItemId)
    requires CacheOk(w, i) && Enabled(w, a) && !a.Step? && Gentle(w, a, i)
    requires a.Abort? ==> ReadOk(w.cacheOn, w.db, w.txs[a.tid], i) && TxOk(w.db, w.txs[a.tid])
    ensures CacheOk(Next(w, a), i)
  {
    if w.cacheOn {
      EntryStays(w, Next(w, a), i);
    }
  }

  // ---- Reads ----

  /** The lookup of a get_stock finds the committed stock, since nobody has published another. */
  lemma LookupAgrees(w: World, t: Tid, glitch: bool, i: ItemId)
    requires CacheOk(w, i) && Enabled(w, Step(t, glitch)) && w.txs[t].req == GetStock(i) && w.txs[t].phase.Reading?
    requires Idle(w.txs[t]) && Gentle(w, Step(t, glitch), i)
    requires (forall u | u in w.txs :: TxOk(w.db, w.txs[u])) && ReadsOk(w, i)
    ensures var hit := Lookup(w, w.txs[t].req, glitch);
            hit.Some? ==> w.cacheOn && i in w.db.items && hit.value == w.db.items[i].stock
  {
    var w' := Next(w, Step(t, glitch));
    if Lookup(w, w.txs[t].req, glitch).Some? {
      assert HoldsHit(w'.txs[t], i);
      forall u | u in w.txs ensures !Published(w.txs[u], i) {
        assert TxOk(w.db, w.txs[u]) && ReadOk(w.cacheOn, w.db, w.txs[u], i);
        assert u in w'.txs && (u != t ==> w'.txs[u] == w.txs[u]);
      }
    }
  }

  lemma AdvanceReads(on: bool, db: Db, hit: Option<int>, tx: Tx, i: ItemId)
    requires TxOk(db, tx) && !tx.phase.Ending? && ReadOk(on, db, tx, i)
    requires tx.req == GetStock(i) && tx.phase.Reading? && hit.Some? ==>
               on && i in db.items && hit.value == db.items[i].stock
    ensures ReadOk(on, db, Advance(db, hit, tx), i)
  {
  }

  lemma StepReads(w: World, t: Tid, glitch: bool, i: ItemId)
    requires Inv(w) && Calm(w, i) && Enabled(w, Step(t, glitch)) && Gentle(w, Step(t, glitch), i)
    requires !w.txs[t].phase.Ending?
    ensures ReadsOk(Next(w, Step(t, glitch)), i)
  {
    var tx, hit := w.txs[t], Lookup(w, w.txs[t].req, glitch);
    assert TxOk(w.db, tx);
    if tx.req == GetStock(i) && tx.phase.Reading? {
      LookupAgrees(w, t, glitch, i);
    }
    AdvanceReads(w.cacheOn, w.db, hit, tx, i);
  }

  /** No commit changes the stock under a read that holds a hit. */
  lemma EndReads(w: World, t: Tid, i: ItemId)
    requires Inv(w) && Calm(w, i) && t in w.txs && w.txs[t].phase.Ending?
    ensures ReadsOk(Finish(w, t), i) && NoDrift(Finish(w, t), i)
  {
    var tx, w' := w.txs[t], Finish(w, t);
    assert TxOk(w.db, tx) && ReadOk(w.cacheOn, w.db, tx, i);
    forall u | u in w'.txs ensures ReadOk(w'.cacheOn, w'.db, w'.txs[u], i) {
      assert ReadOk(w.cacheOn, w.db, w.txs[u], i);
      if HoldsHit(w.txs[u], i) {
        assert !Writer(tx, i);
      }
    }
  }

  /** Under any interleaving, the end of a get_stock changes the tables exactly when it has flushed its
      row and the quantity it reports is not the committed one; it then commits that quantity, and
      changes nothing else. */
  lemma WriteBackMovesStock(w: World, t: Tid)
    requires Reachable(w) && t in w.txs && w.txs[t].req.GetStock? && w.txs[t].phase.Ending?
    ensures var tx, i, db' := w.txs[t], w.txs[t].req.item, Finish(w, t).db;
            && (db' != w.db <==> tx.writes != NOTHING && i in w.db.items && tx.quantity != Some(w.db.items[i].stock))
            && (db' != w.db <==> Finish(w, t).ended[|w.ended|].drift != 0)
            && (db' != w.db ==>
                  && tx.quantity.Some?
                  && db' == w.db.(items := w.db.items[i := w.db.items[i].(stock := tx.quantity.value)]))
  {
    ReachableInv(w);
    var tx := w.txs[t];
    assert TxOk(w.db, tx);
    assert Apply(w.db, NOTHING) == w.db;
    if tx.writes != NOTHING {
      assert w.db.items[ItemKey(tx) := w.db.items[ItemKey(tx)]] == w.db.items;
    }
  }

  // ---- Gentle runs ----

  lemma GentleKeepsCalm(w: World, a: Action, i: ItemId)
    requires Inv(w) && Calm(w, i) && Enabled(w, a) && Gentle(w, a, i)
    ensures Calm(Next(w, a), i)
  {
    match a
    case Step(t, glitch) =>
      if w.txs[t].phase.Ending? {
        EndKeeps(w, t, i);
        EndReads(w, t, i);
      } else {
        StepReads(w, t, glitch, i);
        if w.txs[t].phase.Caching? {
          CachingKeeps(w, t, glitch, i);
        } else {
          AdvanceKeeps(w, t, glitch, i);
        }
      }
    case _ => OthersKeep(w, a, i);
  }

  /** In a run that is gentle to item i, get_stock included: its cache entry, when no open transaction
      has written the item, is absent or the committed stock; when its writer has published it, absent
      or the stock the writer will commit; and no get_stock has moved its committed stock. */
  lemma {:induction false} CacheIsCoherent(policy: Policy, cacheOn: bool, acts: seq<Action>, i: ItemId)
    requires Runnable(Init(policy, cacheOn), acts) && GentleRun(Init(policy, cacheOn), acts, i)
    ensures var w := Exec(Init(policy, cacheOn), acts);
            && (i in w.cache && (forall t | t in w.txs :: !Wrote(w.txs[t], i)) ==>
                  i in w.db.items && w.cache[i] == w.db.items[i].stock)
            && (forall t | i in w.cache && t in w.txs && Published(w.txs[t], i) ::
                  w.cache[i] == w.txs[t].writes.item.value.row.stock)
            && (forall e | e in w.ended && e.req == GetStock(i) :: e.drift == 0)
            && Calm(w, i)
    decreases |acts|
  {
    if acts != [] {
      var prefix, a := acts[..|acts| - 1], acts[|acts| - 1];
      CacheIsCoherent(policy, cacheOn, prefix, i);
      ExecKeepsInv(Init(policy, cacheOn), prefix);
      GentleKeepsCalm(Exec(Init(policy, cacheOn), prefix), a, i);
    }
  }

  /** Without a cache every run is gentle. */
  lemma {:induction false} CacheOffIsGentle(policy: Policy, acts: seq<Action>, i: ItemId)
    requires Runnable(Init(policy, false), acts)
    ensures GentleRun(Init(policy, false), acts, i)
    decreases |acts|
  {
    if acts != [] {
      CacheOffIsGentle(policy, acts[..|acts| - 1], i);
      ExecKeepsInv(Init(policy, false), acts[..|acts| - 1]);
    }
  }

  // ---- Runs without drift ----

  /** Nobody calls get_stock for item i. */
  predicate Unread(acts: seq<Action>, i: ItemId) {
    forall a | a in acts && a.Begin? :: a.req != GetStock(i)
  }

  ghost predicate NoReader(w: World, i: ItemId) {
    && (forall t | t in w.txs :: w.txs[t].req != GetStock(i))
    && (forall e | e in w.ended :: e.req != GetStock(i))
  }

  lemma NextHasNoReader(w: World, a: Action, i: ItemId)
    requires Enabled(w, a) && NoReader(w, i) && (a.Begin? ==> a.req != GetStock(i))
    requires a.Step? ==> TxOk(w.db, w.txs[a.tid])
    ensures NoReader(Next(w, a), i)
  {
    if a.Step? && !w.txs[a.tid].phase.Ending? {
      AdvanceAcquires(w.db, Lookup(w, w.txs[a.tid].req, a.glitch), w.txs[a.tid]);
    }
  }

  lemma {:induction false} UnreadHasNoReader(policy: Policy, cacheOn: bool, acts: seq<Action>, i: ItemId)
    requires Runnable(Init(policy, cacheOn), acts) && Unread(acts, i)
    ensures NoReader(Exec(Init(policy, cacheOn), acts), i)
    decreases |acts|
  {
    if acts != [] {
      var prefix, a := acts[..|acts| - 1], acts[|acts| - 1];
      UnreadHasNoReader(policy, cacheOn, prefix, i);
      ExecKeepsInv(Init(policy, cacheOn), prefix);
      assert a in acts;
      NextHasNoReader(Exec(Init(policy, cacheOn), prefix), a, i);
    }
  }

  /** What keeps the committed stock of item i safe from reads. */
  ghost predicate ReadsSafely(policy: Policy, cacheOn: bool, acts: seq<Action>, i: ItemId)
    requires Runnable(Init(policy, cacheOn), acts)
  {
    !cacheOn || Unread(acts, i) || GentleRun(Init(policy, cacheOn), acts, i)
  }

  /** Then no get_stock moves it. */
  lemma SafeReadsDoNotDrift(policy: Policy, cacheOn: bool, acts: seq<Action>, i: ItemId)
    requires Runnable(Init(policy, cacheOn), acts) && ReadsSafely(policy, cacheOn, acts, i)
    ensures NoDrift(Exec(Init(policy, cacheOn), acts), i)
  {
    if Unread(acts, i) {
      UnreadHasNoReader(policy, cacheOn, acts, i);
    } else {
      if !cacheOn {
        CacheOffIsGentle(policy, acts, i);
      }
      CacheIsCoherent(policy, cacheOn, acts, i);
    }
  }
}
