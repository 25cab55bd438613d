/** Every interleaving is equivalent to running the requests one at a time, in the order in which
    they took effect, unless a conflict committed its half-done work or a stale read was written back. */
module Serializability {
  import opened Domain
  import opened Sums
  import opened Spec
  import opened Machine
  import opened Safety
  import opened Coherence

  /** Running the logged requests one at a time, atomically, from empty tables. */
  function Replay(policy: Policy, log: seq<Entry>): Db {
    if log == [] then EMPTY_DB
    else Atomic(policy, Replay(policy, log[..|log| - 1]), log[|log| - 1].req)
  }

  /** Every logged request gets, when run in that order, the reply its caller saw. */
  predicate Faithful(policy: Policy, log: seq<Entry>) {
    log == [] ||
    (&& Faithful(policy, log[..|log| - 1])
     && Answer(Replay(policy, log[..|log| - 1]), log[|log| - 1].req) == log[|log| - 1].reply)
  }

  /** A committed effect that no atomic run of the request has. */
  predicate Stray(e: Ended) {
    e.committed && ((e.outcome == Conflict && e.writes != NOTHING) || e.drift != 0)
  }

  ghost predicate NoStrays(ended: seq<Ended>) {
    forall e | e in ended :: !Stray(e)
  }

  ghost predicate Serial(w: World) {
    Replay(w.policy, w.serial) == w.db && Faithful(w.policy, w.serial)
  }

  lemma ReplayAppend(policy: Policy, log: seq<Entry>, e: Entry)
    ensures Replay(policy, log + [e]) == Atomic(policy, Replay(policy, log), e.req)
    ensures Faithful(policy, log + [e]) <==>
              Faithful(policy, log) && Answer(Replay(policy, log), e.req) == e.reply
  {
    assert (log + [e])[..|log|] == log;
  }

  /** A failed read, or a get_stock that writes nothing, has the plan and the reply of the same
      request run now. */
  lemma ReadIsPlanned(db: Db, hit: Option<int>, tx: Tx)
    requires DbOk(db) && TxOk(db, tx) && !tx.phase.Ending?
    ensures var tx' := Advance(db, hit, tx);
            tx'.phase.Ending? && (tx.phase.Fetching? || tx'.phase.outcome in {NotFound, InvalidTransition}) ==>
              && Plan(db, tx.req) == Planned(tx'.phase.outcome, NOTHING)
              && Answer(db, tx.req) == Reply(tx'.phase.outcome, tx'.quantity)
  {
  }

  /** A transaction that ends without a stray effect leaves the tables as its request, run
      atomically, does; and if it is not logged at its end, it leaves them alone. */
  lemma EndIsPlanned(w: World, t: Tid)
    requires Inv(w) && t in w.txs && w.txs[t].phase.Ending?
    requires !Stray(Finish(w, t).ended[|w.ended|])
    ensures var tx := w.txs[t];
            if LinearizeEnd(t, tx) == [] then Finish(w, t).db == w.db
            else
              && Finish(w, t).db == Atomic(w.policy, w.db, tx.req)
              && Answer(w.db, tx.req) == Reply(tx.phase.outcome, tx.quantity)
  {
    var tx, w' := w.txs[t], Finish(w, t);
    assert TxOk(w.db, tx);
    assert Apply(w.db, NOTHING) == w.db;
    if tx.req.GetStock? && tx.writes != NOTHING {
      var i := ItemKey(tx);
      assert w'.ended[|w.ended|].drift == 0;
      assert w.db.items[i := w.db.items[i]] == w.db.items;
    }
  }

  lemma FinishKeepsSerial(w: World, t: Tid)
    requires Inv(w) && t in w.txs && w.txs[t].phase.Ending? && Serial(w)
    requires !Stray(Finish(w, t).ended[|w.ended|])
    ensures Serial(Finish(w, t))
  {
    EndIsPlanned(w, t);
    ReplayAppend(w.policy, w.serial, EntryOf(t, w.txs[t]));
    assert w.serial + [] == w.serial;
  }

  lemma AdvanceKeepsSerial(w: World, t: Tid, glitch: bool)
    requires Inv(w) && Enabled(w, Step(t, glitch)) && !w.txs[t].phase.Ending? && Serial(w)
    ensures Serial(Next(w, Step(t, glitch)))
  {
    var tx, hit := w.txs[t], Lookup(w, w.txs[t].req, glitch);
    assert TxOk(w.db, tx);
    var tx' := Advance(w.db, hit, tx);
    AdvanceAcquires(w.db, hit, tx);
    ReadIsPlanned(w.db, hit, tx);
    assert w.serial + [] == w.serial;
    assert Apply(w.db, NOTHING) == w.db;
    if tx'.phase.Ending? {
      ReplayAppend(w.policy, w.serial, EntryOf(t, tx'));
    }
  }

  /** A stray leaves tables that the serial order does not lead to: the movement of a committed
      conflict is in the ledger for no logged request, and a get_stock that is logged moved stock. */
  lemma StrayBreaksSerial(w: World, t: Tid)
    requires DbOk(w.db) && t in w.txs && TxOk(w.db, w.txs[t]) && w.txs[t].phase.Ending? && Serial(w)
    requires Stray(Finish(w, t).ended[|w.ended|])
    ensures !Serial(Finish(w, t))
  {
    var tx, w' := w.txs[t], Finish(w, t);
    if tx.phase.outcome == Conflict {
      assert w'.serial == w.serial;
      assert |w'.db.ledger| == |w.db.ledger| + 1;
    } else {
      assert Apply(w.db, NOTHING) == w.db;
      ReplayAppend(w.policy, w.serial, EntryOf(t, tx));
    }
  }

  ghost predicate SerialThroughout(w: World, acts: seq<Action>)
    requires Runnable(w, acts)
    decreases |acts|
  {
    Serial(Exec(w, acts)) && (acts == [] || SerialThroughout(w, acts[..|acts| - 1]))
  }

  lemma NextIsSerial(w: World, a: Action)
    requires Inv(w) && Enabled(w, a) && Serial(w) && NoStrays(w.ended)
    ensures Serial(Next(w, a)) <==> NoStrays(Next(w, a).ended)
  {
    var w' := Next(w, a);
    if a.Step? && w.txs[a.tid].phase.Ending? {
      var last := w'.ended[|w.ended|];
      assert NoStrays(w'.ended) <==> !Stray(last) by {
        assert last in w'.ended;
      }
      assert TxOk(w.db, w.txs[a.tid]);
      if Stray(last) {
        StrayBreaksSerial(w, a.tid);
      } else {
        FinishKeepsSerial(w, a.tid);
      }
    } else if a.Step? {
      AdvanceKeepsSerial(w, a.tid, a.glitch);
    }
  }

  lemma StraysStay(w: World, a: Action)
    requires Enabled(w, a) && NoStrays(Next(w, a).ended)
    ensures NoStrays(w.ended)
  {
    forall e | e in w.ended ensures !Stray(e) {
      assert e in Next(w, a).ended;
    }
  }

  /** Serializability, replies included, and its limit: a run is, after each of its actions, equivalent
      to the serial one if and only if none of its requests has committed a stray effect. */
  lemma {:induction false} Serializable(policy: Policy, cacheOn: bool, acts: seq<Action>)
    requires Runnable(Init(policy, cacheOn), acts)
    ensures SerialThroughout(Init(policy, cacheOn), acts) <==> NoStrays(Exec(Init(policy, cacheOn), acts).ended)
    decreases |acts|
  {
    if acts != [] {
      var prefix, a := acts[..|acts| - 1], acts[|acts| - 1];
      var w := Exec(Init(policy, cacheOn), prefix);
      Serializable(policy, cacheOn, prefix);
      ExecKeepsInv(Init(policy, cacheOn), prefix);
      if NoStrays(w.ended) {
        NextIsSerial(w, a);
      } else if NoStrays(Next(w, a).ended) {
        StraysStay(w, a);
      }
    }
  }

  // ---- When there are no strays ----

  ghost predicate NoConflictCommitted(w: World) {
    forall e | e in w.ended && e.outcome == Conflict :: !e.committed
  }

  /** If conflicts roll back, none is committed; and only a get_stock drifts. */
  lemma {:induction false} RollbackCommitsNoConflict(policy: Policy, cacheOn: bool, acts: seq<Action>)
    requires Runnable(Init(policy, cacheOn), acts)
    ensures !policy.Commits(Conflict) ==> NoConflictCommitted(Exec(Init(policy, cacheOn), acts))
    ensures forall e | e in Exec(Init(policy, cacheOn), acts).ended && !e.req.GetStock? :: e.drift == 0
    decreases |acts|
  {
    if acts != [] {
      RollbackCommitsNoConflict(policy, cacheOn, acts[..|acts| - 1]);
      ExecKeepsInv(Init(policy, cacheOn), acts[..|acts| - 1]);
    }
  }

  /** If conflicts roll back, and each item that get_stock is called for is read safely, there are none. */
  lemma RollbackLeavesNoStrays(policy: Policy, cacheOn: bool, acts: seq<Action>)
    requires Runnable(Init(policy, cacheOn), acts)
    requires !policy.Commits(Conflict)
    requires forall i :: ReadsSafely(policy, cacheOn, acts, i)
    ensures NoStrays(Exec(Init(policy, cacheOn), acts).ended)
  {
    var w := Exec(Init(policy, cacheOn), acts);
    RollbackCommitsNoConflict(policy, cacheOn, acts);
    forall e | e in w.ended ensures !Stray(e) {
      if e.req.GetStock? {
        assert ReadsSafely(policy, cacheOn, acts, e.req.item);
        SafeReadsDoNotDrift(policy, cacheOn, acts, e.req.item);
      }
    }
  }

  /** If conflicts roll back, any interleaving leaves the tables and the replies of the same requests
      run one at a time, as long as get_stock is called only without a cache, or for items to which
      the run is gentle. */
  lemma RollbackIsSerializable(policy: Policy, cacheOn: bool, acts: seq<Action>)
    requires Runnable(Init(policy, cacheOn), acts)
    requires !policy.Commits(Conflict)
    requires forall i :: ReadsSafely(policy, cacheOn, acts, i)
    ensures Serial(Exec(Init(policy, cacheOn), acts))
  {
    RollbackLeavesNoStrays(policy, cacheOn, acts);
    Serializable(policy, cacheOn, acts);
  }

  // ---- The order ----

  predicate Effective(e: Entry) {
    e.reply.outcome in {Success, InsufficientStock} && !e.req.GetStock?
  }

  function ReplyOf(e: Ended): Entry {
    Entry(e.tid, e.req, Reply(e.outcome, e.quantity))
  }

  /** The replies in the order in which get_db ended the requests, ConflictErrors left out. */
  function Replies(ended: seq<Ended>): seq<Entry> {
    if ended == [] then []
    else
      var e := ended[|ended| - 1];
      Replies(ended[..|ended| - 1]) + (if e.outcome != Conflict then [ReplyOf(e)] else [])
  }

  /** The transaction has taken effect already although it has not ended. */
  predicate TakenEffect(t: Tid, tx: Tx) {
    tx.phase.Ending? && tx.phase.outcome != Conflict && LinearizeEnd(t, tx) == []
  }

  /** 1 for the reply of an open transaction that has taken effect. */
  function Coming(txs: map<Tid, Tx>, x: Entry): nat {
    if x.tid in txs && TakenEffect(x.tid, txs[x.tid]) && EntryOf(x.tid, txs[x.tid]) == x then 1 else 0
  }

  /** The entries of x in the serial order, less the replies x, given or coming. */
  function Spare(w: World, x: Entry): int {
    multiset(w.serial)[x] - multiset(Replies(w.ended))[x] - Coming(w.txs, x)
  }

  /** Every reply, given or coming, has an entry of its own. */
  ghost predicate Logged(w: World) {
    forall x :: Spare(w, x) >= 0
  }

  /** What has been replied since gets its own entry. */
  ghost predicate LogsOn(w: World, w': World) {
    && w.serial <= w'.serial && w.ended <= w'.ended
    && forall x :: Spare(w, x) <= Spare(w', x)
  }

  ghost predicate InCommitOrder(w: World) {
    Select(w.serial, Effective) == Select(Replies(w.ended), Effective)
  }

  /** What one statement adds to the serial order: the entry of a reply that has no later effect. */
  lemma LinearizedRead(db: Db, hit: Option<int>, t: Tid, tx: Tx)
    requires TxOk(db, tx) && !tx.phase.Ending?
    ensures var tx' := Advance(db, hit, tx); var log := Linearize(t, tx, tx');
            && (log != [] ==> tx'.phase.Ending? && log == [EntryOf(t, tx')] && !Effective(log[0]))
            && (TakenEffect(t, tx') ==> log != [])
  {
  }

  lemma StepLogsOn(w: World, t: Tid, glitch: bool)
    requires Inv(w) && Enabled(w, Step(t, glitch)) && !w.txs[t].phase.Ending?
    ensures LogsOn(w, Next(w, Step(t, glitch)))
    ensures InCommitOrder(w) ==> InCommitOrder(Next(w, Step(t, glitch)))
  {
    var tx, w' := w.txs[t], Next(w, Step(t, glitch));
    assert TxOk(w.db, tx);
    LinearizedRead(w.db, Lookup(w, tx.req, glitch), t, tx);
    AppendLogsOn(w, w', t, Linearize(t, tx, w'.txs[t]));
  }

  lemma AppendLogsOn(w: World, w': World, t: Tid, log: seq<Entry>)
    requires t in w.txs && !w.txs[t].phase.Ending? && t in w'.txs && w'.txs == w.txs[t := w'.txs[t]]
    requires w'.ended == w.ended && w'.serial == w.serial + log
    requires log != [] ==> w'.txs[t].phase.Ending? && log == [EntryOf(t, w'.txs[t])] && !Effective(log[0])
    requires TakenEffect(t, w'.txs[t]) ==> log != []
    ensures LogsOn(w, w')
    ensures InCommitOrder(w) ==> InCommitOrder(w')
  {
    if log == [] {
      assert w'.serial == w.serial;
    } else {
      SelectAppend(w.serial, Effective, log[0]);
    }
  }

  lemma FinishLogsOn(w: World, t: Tid)
    requires t in w.txs && w.txs[t].phase.Ending?
    ensures LogsOn(w, Finish(w, t))
  {
    var w' := Finish(w, t);
    assert ReplyOf(w'.ended[|w.ended|]) == EntryOf(t, w.txs[t]) && w'.ended[..|w.ended|] == w.ended;
  }

  lemma FinishKeepsCommitOrder(w: World, t: Tid)
    requires t in w.txs && w.txs[t].phase.Ending? && InCommitOrder(w)
    ensures InCommitOrder(Finish(w, t))
  {
    var entry, w' := EntryOf(t, w.txs[t]), Finish(w, t);
    assert ReplyOf(w'.ended[|w.ended|]) == entry && w'.ended[..|w.ended|] == w.ended;
    SelectAppend(Replies(w.ended), Effective, entry);
    SelectAppend(w.serial, Effective, entry);
    assert w.serial + [] == w.serial && Replies(w.ended) + [] == Replies(w.ended);
  }

  lemma NextLogsOn(w: World, a: Action)
    requires Inv(w) && Enabled(w, a)
    ensures LogsOn(w, Next(w, a))
    ensures InCommitOrder(w) ==> InCommitOrder(Next(w, a))
  {
    if a.Step? && w.txs[a.tid].phase.Ending? {
      FinishLogsOn(w, a.tid);
      if InCommitOrder(w) {
        FinishKeepsCommitOrder(w, a.tid);
      }
    } else if a.Step? {
      StepLogsOn(w, a.tid, a.glitch);
    }
  }

  lemma {:induction false} RunLogsOn(w: World, acts: seq<Action>)
    requires Inv(w) && Runnable(w, acts)
    ensures LogsOn(w, Exec(w, acts))
    ensures InCommitOrder(w) ==> InCommitOrder(Exec(w, acts))
    decreases |acts|
  {
    if acts != [] {
      var prefix, a := acts[..|acts| - 1], acts[|acts| - 1];
      RunLogsOn(w, prefix);
      ExecKeepsInv(w, prefix);
      NextLogsOn(Exec(w, prefix), a);
      LogsOnAndOn(w, Exec(w, prefix), Exec(w, acts));
    }
  }

  lemma LogsOnAndOn(w: World, w': World, w'': World)
    requires LogsOn(w, w') && LogsOn(w', w'')
    ensures LogsOn(w, w'')
  {
    forall x ensures Spare(w, x) <= Spare(w'', x) {
      assert Spare(w, x) <= Spare(w', x) <= Spare(w'', x);
    }
  }

  /** Every reply except a ConflictError has its own entry in the serial order, identical replies
      included, and the requests that succeeded or ran out of stock stand there in the order in which
      get_db ended them. */
  lemma SerialOrderIsCommitOrder(policy: Policy, cacheOn: bool, acts: seq<Action>)
    requires Runnable(Init(policy, cacheOn), acts)
    ensures var w := Exec(Init(policy, cacheOn), acts);
            && multiset(Replies(w.ended)) <= multiset(w.serial)
            && Select(w.serial, Effective) == Select(Replies(w.ended), Effective)
            && Logged(w)
  {
    var init, w := Init(policy, cacheOn), Exec(Init(policy, cacheOn), acts);
    RunLogsOn(init, acts);
    forall x ensures Spare(w, x) >= 0 {
      assert Spare(init, x) == 0 && Spare(init, x) <= Spare(w, x);
    }
    EveryReplyLogged(w);
  }

  lemma EveryReplyLogged(w: World)
    requires Logged(w)
    ensures multiset(Replies(w.ended)) <= multiset(w.serial)
  {
    forall x ensures multiset(Replies(w.ended))[x] <= multiset(w.serial)[x] {
      assert Spare(w, x) >= 0;
    }
  }

  lemma {:induction false} RepliesSplit(a: seq<Ended>, b: seq<Ended>)
    ensures Replies(a + b) == Replies(a) + Replies(b)
    decreases |b|
  {
    if b == [] {
      assert a + b == a;
    } else {
      RepliesSplit(a, b[..|b| - 1]);
      assert (a + b)[..|a + b| - 1] == a + b[..|b| - 1];
    }
  }

  /** The serial order respects real time: it only grows at its end; every reply given so far, failed
      reads and get_stock included, has its entry in it; and every reply that is given later to a
      request that is not open now has its entry behind all of those. */
  lemma RealTimeOrder(w: World, acts: seq<Action>)
    requires Reachable(w) && Runnable(w, acts)
    ensures var w' := Exec(w, acts);
            && w.serial <= w'.serial && w.ended <= w'.ended
            && multiset(Replies(w.ended)) <= multiset(w.serial)
            && forall x: Entry | x.tid !in w.txs ::
                 multiset(Replies(w'.ended[|w.ended|..]))[x] <= multiset(w'.serial[|w.serial|..])[x]
  {
    var init, w' := Init(w.policy, w.cacheOn), Exec(w, acts);
    var before :| Runnable(init, before) && Exec(init, before) == w;
    SerialOrderIsCommitOrder(w.policy, w.cacheOn, before);
    ReachableInv(w);
    RunLogsOn(w, acts);
    SinceThen(w, w');
  }

  lemma SinceThen(w: World, w': World)
    requires LogsOn(w, w')
    ensures forall x: Entry | x.tid !in w.txs ::
              multiset(Replies(w'.ended[|w.ended|..]))[x] <= multiset(w'.serial[|w.serial|..])[x]
  {
    var ended, serial := w'.ended[|w.ended|..], w'.serial[|w.serial|..];
    assert w'.ended == w.ended + ended && w'.serial == w.serial + serial;
    RepliesSplit(w.ended, ended);
    forall x: Entry | x.tid !in w.txs ensures multiset(Replies(ended))[x] <= multiset(serial)[x] {
      assert Spare(w, x) <= Spare(w', x);
    }
  }
}
