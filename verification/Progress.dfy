/** Nobody waits forever: locks are taken item before order, so some transaction can always move,
    and every statement brings its transaction closer to its end. */
module Progress {
  import opened Domain
  import opened Sums
  import opened Spec
  import opened Machine
  import opened Safety

  /** A bound on the statements a transaction still executes. */
  function Remaining(tx: Tx): int {
    match tx.phase
    case Reading => 6
    case Fetching(_) => 3
    case Locking => 5
    case Writing(_) => 4
    case Caching => 3
    case Inserting => 2
    case Updating(_) => 2
    case WritingBack(_) => 2
    case Ending(_) => 1
  }

  ghost function Measure(w: World): int {
    SumRows(w.txs, Remaining)
  }

  lemma MeasureNonNegative(w: World)
    ensures Measure(w) >= 0
  {
    SumNonNegative(w.txs, Remaining);
  }

  lemma AdvanceDecreases(db: Db, hit: Option<int>, tx: Tx)
    requires TxOk(db, tx) && !tx.phase.Ending?
    ensures Remaining(Advance(db, hit, tx)) < Remaining(tx)
  {
  }

  lemma StepDecreases(w: World, t: Tid, glitch: bool)
    requires Inv(w) && Enabled(w, Step(t, glitch))
    ensures Measure(Next(w, Step(t, glitch))) < Measure(w)
  {
    var tx, w' := w.txs[t], Next(w, Step(t, glitch));
    if tx.phase.Ending? {
      SumRemove(w.txs, Remaining, t);
    } else {
      SumPut(w.txs, Remaining, t, w'.txs[t]);
      AdvanceDecreases(w.db, Lookup(w, tx.req, glitch), tx);
    }
  }

  // ---- Waiting ----

  predicate HeldByOther(txs: map<Tid, Tx>, t: Tid, locks: set<Lock>) {
    exists u | u in txs && u != t :: txs[u].lock in locks
  }

  /** Who waits for whom: SELECT FOR UPDATE for everybody who holds a lock on the item, the insert of
      an order for SELECT FOR UPDATE, a write-back for everybody but the inserts, and a conditional
      update that matches for the writer of its order. Nothing else waits. */
  lemma WaitingTable(w: World, t: Tid)
    requires t in w.txs
    ensures var tx := w.txs[t]; var i := ItemKey(tx);
            match tx.phase
            case Locking =>
              Waits(w, t) <==>
              i in w.db.items && HeldByOther(w.txs, t, {ForUpdate(i), NoKeyUpdate(i), KeyShare(i)})
            case Inserting => Waits(w, t) <==> HeldByOther(w.txs, t, {ForUpdate(i)})
            case WritingBack(_) => Waits(w, t) <==> HeldByOther(w.txs, t, {ForUpdate(i), NoKeyUpdate(i)})
            case Updating(_) =>
              Waits(w, t) <==>
              VersionMatches(w.db, tx)
              && exists u | u in w.txs && u != t ::
                   w.txs[u].writes.order.Some? && w.txs[u].writes.order.value.key == tx.req.order
            case _ => !Waits(w, t)
  {
  }

  // ---- Deadlock freedom ----

  /** Whoever has written an order is at its end and waits for nobody. */
  lemma OrderHolderNeverWaits(w: World, u: Tid)
    requires Inv(w) && u in w.txs && w.txs[u].writes.order.Some?
    ensures !Waits(w, u)
  {
    assert TxOk(w.db, w.txs[u]);
  }

  /** Whoever holds an item lock waits, if at all, for an order. */
  lemma ItemHolderWaitsForOrder(w: World, u: Tid)
    requires Inv(w) && u in w.txs && !w.txs[u].lock.Free? && Waits(w, u)
    ensures w.txs[u].phase.Updating?
  {
    assert TxOk(w.db, w.txs[u]);
  }

  /** A waiting transaction leads, in at most two hops, to one that can move. */
  lemma SomeoneMoves(w: World, t: Tid) returns (free: Tid)
    requires Inv(w) && t in w.txs
    ensures free in w.txs && !Waits(w, free)
  {
    if !Waits(w, t) {
      return t;
    }
    var holder := t;
    if !w.txs[t].phase.Updating? {
      holder :| holder in w.txs && holder != t && !w.txs[holder].lock.Free?;
      if !Waits(w, holder) {
        return holder;
      }
      ItemHolderWaitsForOrder(w, holder);
    }
    var writer :| writer in w.txs && writer != holder && w.txs[writer].writes.order.Some?;
    OrderHolderNeverWaits(w, writer);
    return writer;
  }

  lemma DeadlockFree(w: World)
    requires Reachable(w) && w.txs != map[]
    ensures exists t | t in w.txs :: Enabled(w, Step(t, false))
  {
    ReachableInv(w);
    var t :| t in w.txs;
    var free := SomeoneMoves(w, t);
    assert Enabled(w, Step(free, false));
  }

  /** However the open requests are interleaved, they take a bounded number of statements; and while
      one is open, one can move. So every schedule that goes on as long as it can ends them all. */
  lemma {:induction false} Completes(w: World, acts: seq<Action>)
    requires Inv(w) && Runnable(w, acts) && forall a | a in acts :: a.Step?
    ensures |acts| + Measure(Exec(w, acts)) <= Measure(w)
    ensures (forall t, g :: !Enabled(Exec(w, acts), Step(t, g))) ==> Exec(w, acts).txs == map[]
    decreases |acts|
  {
    if acts != [] {
      var prefix, a := acts[..|acts| - 1], acts[|acts| - 1];
      Completes(w, prefix);
      ExecKeepsInv(w, prefix);
      assert a.Step?;
      StepDecreases(Exec(w, prefix), a.tid, a.glitch);
    }
    ExecKeepsInv(w, acts);
    var w' := Exec(w, acts);
    if w'.txs != map[] {
      var t :| t in w'.txs;
      var free := SomeoneMoves(w', t);
      assert Enabled(w', Step(free, false));
    }
  }

  // ---- The scheduler ----

  /** The event loop: requests arrive, and open transactions execute statements in any order. */
  class Scheduler {
    var world: World

    constructor (policy: Policy, cacheOn: bool)
      ensures world == Init(policy, cacheOn) && Inv(world)
    {
      world := Init(policy, cacheOn);
    }

    method Arrive(t: Tid, req: Request)
      requires Inv(world) && Enabled(world, Begin(t, req))
      modifies this
      ensures Inv(world) && world == Next(old(world), Begin(t, req))
    {
      NextKeepsInv(world, Begin(t, req));
      world := Next(world, Begin(t, req));
    }

    /** Runs until no request is open, always moving some transaction that does not wait. */
    method Drain() returns (acts: seq<Action>)
      requires Inv(world)
      modifies this
      ensures Inv(world) && world.txs == map[]
      ensures Runnable(old(world), acts) && world == Exec(old(world), acts)
      ensures (forall a | a in acts :: a.Step?) && |acts| <= Measure(old(world))
    {
      acts := [];
      while world.txs != map[]
        invariant Inv(world)
        invariant Runnable(old(world), acts) && world == Exec(old(world), acts)
        invariant forall a | a in acts :: a.Step?
        decreases Measure(world)
      {
        ghost var any :| any in world.txs;
        ghost var free := SomeoneMoves(world, any);
        MeasureNonNegative(world);
        var t :| t in world.txs && !Waits(world, t);
        StepDecreases(world, t, false);
        NextKeepsInv(world, Step(t, false));
        ExecAppend(old(world), acts, Step(t, false));
        world, acts := Next(world, Step(t, false)), acts + [Step(t, false)];
      }
      Completes(old(world), acts);
      MeasureNonNegative(world);
    }
  }
}
