# Nova Inventory: the stock and order engine, verified

This project models how the inventory service moves stock: what `OrderService`, `ItemService` and
`StockService` do to items, orders, stock movements and the cache while many requests interleave, and
what survives when `get_db` commits or rolls back. Everything is proved over all inputs and all
interleavings; nothing here is executed.

## How it is modelled

Three descriptions of the same behaviour are tied together by proofs.

- **The engine** (`Machine.dfy`). Every request is a transaction that executes the statements of its
  service method one by one: read the order, check the transition, lock and read the item, flush the
  stock change with its movement, `set_stock`, conditional order update, and the commit or rollback of
  `get_db`. An action begins a request, executes one statement of one open transaction, crashes a
  transaction, or expires a cache entry; a statement may lose a `set_stock` or fail a cache read. A
  run is any sequence of enabled actions, and every theorem about runs is about all of them.
- **The reference** (`Spec.dfy`, `Serial.dfy`). `Plan` says how a request that runs alone ends and
  what it writes, `Answer` what it replies, and `Serve` adds the cache. A transaction of the engine that
  nobody interrupts ends in the tables, the cache and the reply of `Serve` (`Serial.SoloServes`);
  `Outcomes.dfy` writes out for each request what these are.
- **The services** (`Services.dfy`). Session, repositories and services as classes whose row objects
  are changed in place, flushed, and committed or rolled back. Each method is proved against `Plan`,
  a whole request against `Serve`.

Isolation is PostgreSQL's default, since `app/db/session.py:15-31` sets none (PostgreSQL 16
documentation, section 13.2.1, Read Committed, and section 13.3.2, row-level locks). Plain reads see
committed rows. `SELECT ... FOR UPDATE` and `UPDATE` wait for the row and then read it again; a
conditional update whose version already differs in the committed row matches nothing and does not
wait. Inserting an order takes a key-share lock on its item, because of the foreign key, and so waits
for a transaction that holds the item FOR UPDATE, and makes that statement wait in turn. The
key-share lock that a movement takes on its order conflicts with nothing in this service.

The commit policy is a parameter: which errors the caller of a service turns into an `HTTPException`.
`get_db` commits after a normal end or an `HTTPException` and rolls back after any other error
(`app/db/session.py:51-60`). `ROUTER_POLICY` maps all four errors (`app/api/v1/orders.py:85-94`);
`RAISING_POLICY` maps none, as in `tests/integration/test_concurrent_orders.py:51-59`.

## What turned out not to hold

- **A read can lose stock.** `app/core/cache.py:56-57` calls the database the source of truth, but
  `get_stock` assigns the cached quantity to the loaded row and the commit flushes it
  (`app/services/stock_service.py:32-42`). The end of a `get_stock` changes the table exactly when it has
  flushed the row and the quantity it reports is not the committed one (`Coherence.WriteBackMovesStock`).
  It takes no fault for that: an adjustment that commits between the cache lookup and the read of the row
  is undone, under every policy, while ledger and cache keep it (`Witness.OverlappingReadUndoes` from every
  quiet state, `Witness.ReadLosesStock` as a run from empty tables). The other causes are a lost
  `set_stock` (`Witness.LostSetMisleadsRead`), a crash between `set_stock` and commit
  (`Witness.CrashMisleadsRead`) and a conflict that rolls back behind its `set_stock`
  (`Witness.RollbackMisleadsRead`). There are no more: if no `set_stock` of an item is lost, nobody rolls
  back behind one, and no writer of the item is open while a `get_stock` holds a cached quantity that it
  has not compared with the row, then the cache is coherent and no read moves the stock
  (`Coherence.CacheIsCoherent`).
- **A conflict can commit.** The order router maps `ConflictError` too, so `get_db` commits the stock
  change that the request flushed before its conditional update failed. `Witness.RouterLosesStock` is a
  concrete run in which 2 of 5 units disappear; `Witness.RaceWithCancel` is the same race from every quiet
  state.
- **Stock can run out early.** For the same reason N confirms of unit orders on S units do not always end
  with min(N, S) confirmed orders: an order that is confirmed twice at once can waste a unit
  (`Witness.SecondConfirmWastesUnit` from every quiet state, `Witness.RouterWastesUnit` as a run from empty
  tables). `Fulfilment.MaximalFulfilment` gives the exact number under every policy.
- **Serializability** has an exact limit: a run is equivalent to a serial one after each of its actions if
  and only if no request has committed a stray effect, that is, a conflict's flushed work or a write-back
  that moved stock (`Serializability.Serializable`). `Witness.RouterLosesStock` and `Witness.ReadLosesStock`
  end in states that are not. Conservation, the history of an order and the analytics totals are stated
  with the strays as explicit terms, under every policy.
- `refund_value` is described as covering cancelled orders that had stock deducted
  (`app/services/analytics_service.py:70`), but sums all cancelled orders
  (`Witness.PendingCancelIsRefunded`). `Analytics.RefundMatchesMeaning` says exactly when the two agree.

## Model

| member | source | states |
|---|---|---|
| Domain.TransitionTable | app/domain/enums.py:13-34 | the way into each state, state by state; the terminal states are DELIVERED, CANCELLED and REJECTED, exactly those without a way out and those that cannot be cancelled; an allowed transition enters the stock-holding states only by confirming and leaves them only by cancelling |
| Domain.PolicyTable | app/api/v1/orders.py:85-94 | under the order router every outcome commits, under a caller that maps no error only success |
| Safety.NextKeepsInv | app/services/order_service.py:57-218 | every statement, crash, expiry and commit keeps the invariant: locks and order writes exclude each other, snapshots are current while their version is, and what is flushed is what the atomic request would write |
| Safety.ReachableInv | app/services/order_service.py:57-218 | the invariant holds in every reachable state, under every policy, with crashes, lost cache writes and write-backs |
| Safety.NoOversell | app/services/order_service.py:69-86 | committed stock, flushed but uncommitted stock, cached stock and a quantity about to be reported are never negative in any reachable state |
| Safety.RowsAreExclusive | app/repositories/item_repo.py:26-31 | no two open transactions have written the same item row or the same order row |
| Safety.VersionTestIsEnough | app/repositories/order_repo.py:47-60 | whenever the version test of the conditional update matches, the committed row still is the one whose status was checked and the change is an allowed transition, although the update tests no status |
| Safety.NextMovesOrders | app/repositories/order_repo.py:54-60 | each action leaves an order row alone or moves it by one allowed transition to the next version, with item and quantity fixed; rows never disappear, the ledger only grows, new orders are PENDING with version 1 |
| Safety.TermsAreFixed | app/services/item_service.py:40-46 | over every run, the threshold and the price that an item was created with stay, and the item does not disappear |
| Safety.VersionCountsChanges | app/repositories/order_repo.py:54-60 | over every run, version - 1 is the number of committed changes of the order, and at most 3 |
| Serializability.Serializable | app/services/order_service.py:57-166 | after each action of a run, running the logged requests one at a time from empty tables gives the same items, orders and ledger, and every request the reply it had, reported quantities included, if and only if no conflict has committed flushed work and no write-back has moved stock |
| Serializability.RollbackIsSerializable | app/db/session.py:51-60 | that is the case if conflicts roll back and get_stock is called only without a cache, or for items to which the run is gentle |
| Serializability.SerialOrderIsCommitOrder | app/db/session.py:51-60 | in every run each reply except ConflictError has an entry of its own in the serial order, identical replies included, and the requests that succeeded or ran out of stock stand in it in the order in which get_db ended them |
| Serializability.RealTimeOrder | app/db/session.py:51-60 | the serial order only grows at its end; it contains every reply given so far, failed reads and get_stock included, and every reply given later to a request that is not open yet has its entry behind those |
| Ledger.Conservation | app/services/order_service.py:85-108 | under every policy, in every reachable state: stock plus what CONFIRMED, SHIPPED and DELIVERED orders hold equals the adjustments plus what conflicting requests and write-backs committed |
| Ledger.PlainConservation | app/services/order_service.py:133-164 | for an item the last term is zero if conflicts roll back and the cache is off, nobody calls get_stock for it, or the run is gentle to it |
| Ledger.LedgerChain | app/services/item_service.py:47-89 | under every policy the movements of an item start at 0, each continues where the last one ended, the last one ends at the current stock unless a write-back moved it, and item.version counts them |
| Ledger.HistoryIsRecoverable | app/services/order_service.py:124-166 | an order's movements are the ones its status, version and quantity imply if and only if no conflicting request committed a movement for it; only the life-cycle pairs of status and version occur |
| Ledger.AtMostOnce | app/services/order_service.py:104-108 | if conflicts roll back, any number of concurrent confirms and cancels of an order commit at most one deduction and one restoration, the restoration second and of the same quantity |
| Progress.WaitingTable | app/repositories/item_repo.py:26-31 | which statement waits, and for whom: the row lock of an item for everybody who holds a lock on it, the insert of an order for the row lock, a write-back for all but the inserts, a matching conditional update for the writer of its order |
| Progress.DeadlockFree | app/services/order_service.py:65-106 | every reachable state with an open transaction has one whose next statement need not wait |
| Progress.Completes | app/services/item_service.py:68-89 | however open requests interleave, they execute a bounded number of statements, and a schedule that cannot go on has ended them all |
| Progress.Scheduler.Drain | app/services/order_service.py:57-166 | the event loop that always moves some transaction terminates with no open request, by a run of the engine |
| Coherence.CacheIsCoherent | app/services/stock_service.py:32-42 | if no set_stock of an item is lost, nobody rolls back behind one, and no writer of the item is open while a get_stock holds a cached quantity it has not compared with the row: the entry is absent or the committed stock when no open transaction has written the item, absent or the stock that will be committed once its writer has published it, and no get_stock moves the committed stock |
| Coherence.WriteBackMovesStock | app/services/stock_service.py:38-42 | under any interleaving, the end of a get_stock changes the tables exactly when it has flushed its row and reports another quantity than the committed one, which it then commits, changing nothing else |
| Fulfilment.RefusedIsTooLarge | app/services/order_service.py:69-82 | in any interleaving of confirms, under every policy, every order refused for insufficient stock is larger than the stock its item ends with |
| Fulfilment.MaximalFulfilment | app/services/order_service.py:64-108 | distinct pending unit orders on one item, confirmed in any interleaving and under every policy until each has a reply: exactly min(orders, stock - k) end CONFIRMED, where k units were wasted by committed conflicts; that is min(orders, stock) if and only if k = 0 or orders <= stock - k |
| Fulfilment.FulfilmentWithoutWaste | app/services/order_service.py:64-108 | so min(orders, stock) end CONFIRMED if conflicts roll back, or if each order is requested once |
| Fulfilment.DistinctConfirmsNeverConflict | app/services/order_service.py:104-108 | if every order is confirmed by at most one request, no confirm ends in ConflictError |
| Serial.NothingOnRefusal | app/services/order_service.py:69-82 | a request of the engine that runs alone is never refused for a conflict, and if refused leaves the tables as they were, except that a confirm refused for its stock has made its pending order REJECTED with version 2 if the policy commits that |
| Serial.AllOnSuccess | app/services/order_service.py:84-166 | an order request that succeeds alone moves the order from PENDING to CONFIRMED, from CONFIRMED to SHIPPED, from SHIPPED to DELIVERED, or from one of these three to CANCELLED, and moves stock, with a matching movement, exactly when the order starts or stops holding it |
| Serial.SoloServes | app/services/stock_service.py:24-42 | a request of the engine whose statements nobody interrupts ends in the tables, the cache and the reply of Serve, whatever is cached; a cached entry is used unless the run has a glitch or an expiry, and the cache may lack entries that expired meanwhile |
| Serial.SerialNeverConflicts | app/services/order_service.py:57-218 | such a request has the planned outcome, which is never ConflictError, and the effect and the reply of the atomic request; get_stock as long as the cache agrees with the tables |
| Serial.ServeTransparently | app/services/stock_service.py:24-42 | while the cache agrees with the tables, serving a request with and without it is the same, it agrees afterwards, and get_stock changes no row |
| Serial.CacheTransparency | app/core/cache.py:76-109 | if no set_stock is lost, then whatever expires and whichever reads fail, a serial run with the cache has the replies and tables of the run with CacheService(None) |
| Serial.EngineTransparency | app/core/cache.py:76-109 | the same of the engine: with and without a cache that agrees, requests served one after the other get the same replies and leave the same tables, and the cache agrees again |
| Serial.LostSetUndoesAdjustment | app/core/cache.py:94-109 | the hypothesis is needed: after an adjustment whose set_stock is lost, the next cache hit puts the old stock back into the table while the ledger keeps the adjustment |
| Outcomes.EveryRequestIsAnswered | app/db/session.py:51-60 | from every reachable state in which nothing is open, every valid request can run to its end without an interruption |
| Outcomes.PlaceOrderAlone | app/services/order_service.py:40-55 | alone, place_order answers NotFound exactly for an unknown item, and otherwise leaves one more PENDING order with version 1 and nothing else |
| Outcomes.ConfirmAlone | app/services/order_service.py:57-116 | alone, confirm answers NotFound for an unknown order and InvalidTransition for one that is not PENDING; if the stock is too small, InsufficientStock, and the order is REJECTED with version 2 if the policy commits that; otherwise the order is CONFIRMED with version 2, and stock, item version, DEDUCTION and cache follow |
| Outcomes.RouterRejects | app/services/order_service.py:69-82 | under the order router that rejection is in the tables |
| Outcomes.ShipAlone | app/services/order_service.py:118-119 | alone, ship makes a CONFIRMED order SHIPPED with version 3; NotFound for an unknown order, InvalidTransition from every other status, tables unchanged |
| Outcomes.DeliverAlone | app/services/order_service.py:121-122 | alone, deliver makes a SHIPPED order DELIVERED with version 4; NotFound for an unknown order, InvalidTransition from every other status, tables unchanged |
| Outcomes.CancelAlone | app/services/order_service.py:124-166 | alone, cancel succeeds exactly from PENDING, CONFIRMED and SHIPPED, leaving CANCELLED with the next version, and from the last two restores the quantity with item version, RESTORATION and cache |
| Outcomes.CreateItemAlone | app/services/item_service.py:32-63 | alone, create_item leaves the item with its stock, version 1, its threshold and its price, the movement that audits the stock, and the cache entry |
| Outcomes.AdjustStockAlone | app/services/item_service.py:65-99 | alone, adjust_stock answers NotFound for an unknown item and InsufficientStock exactly if stock would be negative, with the tables unchanged; otherwise stock, item version, ADJUSTMENT and cache follow |
| Outcomes.GetStockAlone | app/services/stock_service.py:24-42 | alone, get_stock reports the cached quantity if there is one and no cache call fails and nothing expires, the committed stock if there is none, and commits what it reports; NotFound for an unknown item |
| Witness.RaceWithCancel | app/api/v1/orders.py:85-94 | from every quiet state with a fillable pending order, a confirm that a cancel overtakes loses stock for good if conflicts commit, in a state no serial run explains, and otherwise leaves a stock in the cache that was never committed |
| Witness.ReadWritesBack | app/services/stock_service.py:38-42 | from every quiet state, one uninterrupted get_stock that hits the cache makes the cached quantity the committed stock, and leaves the tables alone exactly when the two agree |
| Witness.OverlappingReadUndoes | app/services/stock_service.py:32-42 | from every quiet state in which cache and table agree, under every policy and without a fault: an adjustment that a get_stock overlaps is undone in the table, while the ledger and the cache keep it; no serial run explains the result |
| Witness.CrashMisleadsRead | app/services/item_service.py:90-91 | from every quiet state, under every policy: after a crash between set_stock and commit, the next get_stock commits the stock that was never committed |
| Witness.LostSetMisleadsRead | app/core/cache.py:94-109 | from every quiet state in which cache and table agree, under every policy: if the set_stock of an adjustment is lost, the next get_stock undoes the adjustment in the table, while the ledger keeps it |
| Witness.SecondConfirmWastesUnit | app/services/order_service.py:57-116 | from every quiet state with two pending unit orders and two units, under every policy that commits conflicts: one order confirmed twice at once wastes a unit, so that of two answered orders one is confirmed and no stock is left |
| Witness.RouterLosesStock | app/api/v1/orders.py:85-94 | a reachable state under the order router in which plain conservation, the history of a cancelled order and serializability fail |
| Witness.RouterWastesUnit | app/api/v1/orders.py:85-94 | a reachable state under the order router in which one of two unit orders on two units is confirmed and no stock is left |
| Witness.ReadLosesStock | app/services/stock_service.py:32-42 | under every policy a reachable state in which 7 units came in, no order took any, and the table says 5 |
| Witness.RollbackMisleadsRead | app/services/stock_service.py:38-42 | a reachable state, conflicts rolled back, in which the table says 3 and the whole ledger says 5 |
| Witness.PendingCancelIsRefunded | app/services/analytics_service.py:70-79 | under every policy a reachable state in which refund_value is positive although nothing was ever deducted or restored |
| Analytics.OrderCountsReconcile | app/services/analytics_service.py:45-56 | each of the six status counts is the number of orders with that status, and they sum to total_orders |
| Analytics.MovementCountsReconcile | app/services/analytics_service.py:95-108 | deductions, restorations and adjustments together count every movement |
| Analytics.MovementsReconcile | app/services/analytics_service.py:95-115 | under every policy: total_units is net_stock_change plus the drift of write-backs, and deductions - restorations is confirmed + shipped + delivered plus what conflicting requests committed |
| Analytics.RefundsAccounted | app/services/analytics_service.py:70-79 | under every policy: refund_value is the price-weighted restorations plus the value of orders cancelled from PENDING less what conflicting requests restored |
| Analytics.RefundMatchesMeaning | app/services/analytics_service.py:70-79 | under every policy, refund_value is the value of the restored stock if and only if the orders cancelled from PENDING are worth what conflicting requests restored; if these restored nothing, as when conflicts roll back, if and only if no order was cancelled from PENDING |
| Analytics.ValueAccounted | app/services/analytics_service.py:19-41 | under every policy: total_value is the value of the net movement plus that of the write-backs, at the items' prices |
| Analytics.RevenueAccounted | app/services/analytics_service.py:58-68 | under every policy: revenue plus the value of confirmed and shipped orders is what orders took out of stock less what conflicting requests took |
| Analytics.LowStockAgreement | app/services/analytics_service.py:25-31 | in every reachable state low_stock_count is the number of items with 0 < stock <= threshold, out_of_stock_count that of items with stock 0, and the low-stock alerts are the disjoint union of the two |
| Analytics.NothingToReport | app/services/analytics_service.py:19-115 | all figures of empty tables are zero |
| Analytics.OneMoreItem | app/services/analytics_service.py:19-41 | what an item adds to total_items, total_units, total_value, low_stock_count and out_of_stock_count |
| Analytics.OneMoreOrder | app/services/analytics_service.py:43-93 | what an order adds to total_orders and to each status count, and its price times quantity to revenue if DELIVERED and to refund_value if CANCELLED |
| Analytics.OneMoreMovement | app/services/analytics_service.py:95-115 | what a movement adds to the three kind counts and to net_stock_change |
| Services.OrderRepository.TransitionStatus | app/repositories/order_repo.py:47-60 | true exactly if the row exists with the expected version, and then the row has the new status and the next version; otherwise nothing changes |
| Services.StockRepository.CreateMovement | app/repositories/stock_repo.py:14-17 | the movement is appended and the loaded item row is flushed with it |
| Services.CacheService.GetStock | app/core/cache.py:76-90 | the cached quantity, or none on a miss, a failed read or a disabled cache |
| Services.CacheService.SetStock | app/core/cache.py:94-109 | the entry is written unless the cache is disabled or the write fails, and nothing is raised |
| Services.OrderService.PlaceOrder | app/services/order_service.py:40-55 | ends and writes as planned: a PENDING order with version 1, or NotFound and nothing |
| Services.OrderService.ConfirmOrder | app/services/order_service.py:57-116 | reply, session view and cache are those of the plan; a PENDING order whose item is too low in stock is REJECTED, any other CONFIRMED with its quantity taken; alone in its session the conditional update never fails |
| Services.OrderService.CancelOrder | app/services/order_service.py:124-166 | reply, session view and cache are those of the plan; every order that is not DELIVERED, CANCELLED or REJECTED ends CANCELLED, and its stock is restored unless it was PENDING |
| Services.OrderService.Restore | app/services/order_service.py:131-158 | the quantity is back in stock with the next item version, a RESTORATION and the cache entry; nothing changes if the item is missing |
| Services.OrderService.Transition | app/services/order_service.py:208-218 | reply and session view are those of the plan of ship or deliver: CONFIRMED becomes SHIPPED, SHIPPED becomes DELIVERED, anything else is InvalidTransition |
| Services.ItemService.CreateItem | app/services/item_service.py:32-63 | the item with its stock, version 1, threshold and price, the movement that audits its initial stock, and the primed cache entry |
| Services.ItemService.AdjustStock | app/services/item_service.py:65-99 | reply, session view and cache are those of the plan, refusing what would make stock negative |
| Services.StockService.GetStock | app/services/stock_service.py:24-42 | the loaded row with the cached quantity assigned to it on a hit, unflushed; null exactly if the item does not exist |
| Services.Close | app/db/session.py:51-60 | a committing outcome publishes the session's view together with the unflushed changes of the loaded row; any other leaves the tables as they were |
| Services.Handle | app/api/v1/orders.py:85-94 | a whole mutating request leaves the tables, the cache and the reply of Serve |
| Services.HandleGetStock | app/api/v1/stock.py:28-43 | a whole stock read leaves the tables and the reply of Serve, its write-back included |

## Left out

- FastAPI routing, authentication, rate limiting, logging: library plumbing; only the mapping of errors to `HTTPException` is kept, because it selects the commit policy.
- Names, descriptions, reasons, customer references and the duplicate-name error of item creation: rows carry abstract fresh identifiers.
- Clocks and the analytics window: the aggregates are taken over a window that covers all rows, and commit order stands for `created_at`.
- 32-bit columns and decimal rounding: quantities are unbounded integers and prices are integers in cents.
- `list_orders` filters, `list_movements_for_item` with its limit, `get_order_detail`: read-only projections that would add only easy members.
- Redis transport and TTL arithmetic: an entry may expire at any time, a read may fail, a `set_stock` may be lost; a `set_stock` that raises after it took effect is not modelled.
- SQLAlchemy's identity map beyond one loaded item per session, and its event order: only the flushed rows and the write-back at commit are kept.
- Locks kept by a conditional update that waited and then matched nothing: such a transaction holds no order row here, which only adds interleavings.
- `invalidate_stock` of the cache service (`app/core/cache.py:111-118`): no service calls it.
- Analytics.LowStockAgreement: does not model the ordering of the alert list, because only its membership is reconciled.
- Services.ItemRepository.GetByIdWithLock: does not model waiting, because a session is alone there; waiting is part of the engine.
