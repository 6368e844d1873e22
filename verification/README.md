# Shop backend: a verified model

This project models the transactional backend of an online shop (FastAPI services over PostgreSQL) and
proves what its services keep over whole runs. Five parts are modelled:

* **Orders, stock and payments.** Checkout reserves stock line by line, a gateway callback commits or
  releases it, a transition table decides which order moves exist, and a conditional update decides which
  callback counts.
* **The category forest.** A worklist finds descendants, `move` keeps the table a forest, `get_tree` nests
  it and `flattenCategories` flattens it again; the nested tree is cached.
* **The idempotency guard** and the **wallet ledger**, serially and under interleaving.
* **Refresh-token families**, rotated and killed on reuse.
* **The ticket auto-close job**, racing other workers and humans, and the **username loop** of the OAuth
  login.

`dafny verify dfyconfig.toml` checks everything.

## How it is laid out

| files | contents |
|---|---|
| `Prelude.dfy` | options, results, errors; sums over table rows; set sizes |
| `OrderGraph.dfy`, `Ledger.dfy` | the status graph and histories along it; wallet and ledger |
| `Shop.dfy` | the tables, every route as one transaction in closed form, runs |
| `Services.dfy` | the services as they run: a session that stages rows and loops over lines, each method proved against `Shop` |
| `StockMoves.dfy`, `StockLaws.dfy`, `StockRuns.dfy`, `StockBreaks.dfy` | reservations against open demand, conservation, and concrete runs where properties fail |
| `MoneyLaws.dfy`, `MoveLaws.dfy`, `PaidLaws.dfy`, `RefundLaws.dfy`, `BalanceLaws.dfy` | orders, payments, refunds and balances |
| `CheckoutLaws.dfy`, `CartLaws.dfy`, `PriceLaws.dfy` | checkout, carts and prices |
| `CallbackRace.dfy`, `OrderRace.dfy`, `WalletRace.dfy`, `IdempotencyRace.dfy` | the interleaved step models |
| `Idempotency.dfy`, `GuardedShop.dfy` | the guard as deduplication, for any business step and for the shop |
| `ParentMap.dfy`, `Categories.dfy`, `CategoryTree.dfy`, `CategoryService.dfy` | the category forest, tree, flattening, cache |
| `RefreshTokens.dfy`, `Tickets.dfy`, `Usernames.dfy` | the remaining services |

A pure function (`CheckoutTx`, `MoveTx`, `Guarded`, ...) says what a route does to the committed tables; a
class (`Session`, `Service`, `Route`, `AuthService`, `TicketStore`) does it step by step as the services do,
and each of its methods is proved to have the effect of the function. The laws are lemmas about the functions.

## Assumptions

* A route body is one transaction on a staged copy: an exception commits nothing
  (`backend/app/db/session.py:19-21`). Routes that touch several rows are serial, because the order row is
  read without a lock (`backend/app/modules/orders/repository.py:14-18`). Interleaving is modelled where the
  code relies on a database primitive: the claim of a payment, the unique idempotency insert, the wallet row
  lock, the conditional update of a ticket.
* Outside `WalletRace`, which says when it matters, a row returned by `FOR UPDATE` is current. Conditional
  updates and unique inserts are atomic, and the check constraints of `product_inventory` are enforced at
  commit.
* Orders, payments and tokens are never deleted, so their ids are their positions. Amounts are whole toman.
* The gateway's answers, the clock, cache expiry and any answer the limited ticket query may give are inputs.
  A name is represented by its rank in the collation that sorts the listing, a request body by itself (its
  hash is taken as injective), a raw refresh token by the id that its hash finds.
* `waits` and `closings` in `Tickets` and `log`, `commits`, `effects`, `settled` in the race models are history
  variables.

## What was found

* **A late cancel takes stock from others.** `cancel` releases the lines of a `paid` order although its stock
  was already purchased. If another order has units of that product reserved, those reservations disappear
  from the books (`StockBreaks.LateCancelUncoversOpenOrder`, a run from an empty shop). Reserved stock stays
  equal to open demand through a request **if and only if** the request is neither such a cancel nor an admin
  move into or out of `awaiting_payment` (`StockRuns.AccountsKeptIff`).
* **Reopening a failed order reserves nothing** (`StockBreaks.ReopenedOrderIsUncovered`).
* **Paying again after a failure cannot succeed.** `init_payment` accepts an order in `payment_failed`, but
  the transition table has no edge from there to `paid` or `payment_failed`, so every callback for the new
  payment is rolled back, also when the gateway has verified it (`MoneyLaws.PayingAgainIsUndone`, and
  `StockBreaks.SecondPaymentIsUndone` from an empty shop; `MoneyLaws.FailedOrderNeedsAdmin`). A first callback
  settles **if and only if** the order awaits payment (`MoneyLaws.CallbackSettlesIff`).
* **The job can close a ticket that was answered after it was picked.** Its update looks at the status only.
  The closed ticket is still stale **if and only if** no reply was written since the pick, or the last one is
  dated before the cutoff (`Tickets.ClosesStaleIff`). It fails for a waiting ticket that support answers once
  more (`Tickets.JobClosesAnsweredTicket`) and for one that left and re-entered `waiting_for_customer`
  (`Tickets.JobClosesFreshWait`). "Exactly once" holds per wait (`Tickets.AutoCloseExactlyOnce`), not per
  ticket (`Tickets.TicketClosedTwice`).
  A closed ticket is reopened exactly by a write of another status than its session read, and by a reply only if
  that session was open before the close (`Tickets.ReopensIff`).
* **A refund needs no payment.** An admin may move an order to `paid` and then refund it
  (`StockBreaks.RefundWithoutPayment`). An order that entered `paid` has a verified payment **if and only if** no
  admin moved it there (`PaidLaws.VerifiedIffNotPaidByAdmin`).
* **Two payments of one order can both be verified** when their callbacks overlap, because the order is read
  without a lock (`OrderRace.TwoPaymentsVerified`); run serially, at most one can
  (`MoneyLaws.OneVerifiedPaymentPerOrder`). The history is a path **if and only if** every settlement finds the
  status it has read, and then at most one payment is verified (`OrderRace.PathIffSettlementsFresh`).
* **A replay can answer another request.** The guard hashes the body only. An admin credit or debit under a
  used key with the same body but another wallet in the path is answered with the first wallet's transaction
  and changes nothing. A replay answers what was asked **if and only if** the wallet is the same
  (`GuardedShop.ReplayAnswersSameRequestIff`, `GuardedShop.CreditReplayedForOtherWallet`).
* **The wallet is read before it is locked.** `get_or_create` selects it without a lock in the same session.
  The books are kept **if and only if** no committed request took its lock on a stale read, that is the locking
  select refreshed the session's row or nobody had changed the balance since the first read
  (`WalletRace.BooksKeptIffLocksFresh`). If a session kept a stale first read, a deposit could be lost from the
  balance (`WalletRace.StaleReadLosesMoney`); the ledger is complete either way (`WalletRace.NoEntryIsLost`).
* **Documentation and code differ.** `docs/architecture.md:260-270` promises a `409` for a key that is still
  pending and lists payment verification among the guarded operations. The code replays or refuses, and the
  callback route is not guarded. No pending row can be seen (`IdempotencyRace.CommittedRowsAreCompleted`), so
  the `409` has no case. `docs/architecture.md:286` names a column `last_customer_response_at`; the job reads
  `last_response_at`, which staff replies also set. The model follows the code.

## Model

| member | source | states |
|---|---|---|
| `OrderGraph.ProgressIsBounded` | backend/app/modules/orders/models.py:26-40 | Along any path of the transition table every move outside the `awaiting_payment`/`payment_failed` cycle lowers a rank, so their number is bounded by the rank of the start |
| `OrderGraph.PaidOnce` | backend/app/modules/orders/models.py:26-40 | A history from `pending` enters `paid` at most once, has entered it in every status that only paid orders have, and ends behind it if it did |
| `OrderGraph.NoPaymentAfterPaid` | backend/app/modules/orders/models.py:26-40 | After `paid` no history enters `awaiting_payment`, `payment_failed` or `paid` again |
| `OrderGraph.TerminalEndsHistory` | backend/app/modules/orders/models.py:26-40 | `cancelled` and `refunded` can only be the last step of a history |
| `OrderGraph.FulfilmentInOrder` | backend/app/modules/orders/models.py:26-40 | A history enters `processing` only from `paid`, `shipped` only from `processing`, `completed` only from `shipped`, `refunded` only from `paid` or `completed`, `paid` and `payment_failed` only from `awaiting_payment`, each directly after the row that led there |
| `StockLaws.StepKeepsWellFormed` | backend/app/modules/catalog/models.py:102-106 | Every request, without exception, keeps `0 <= reserved <= total`, order totals equal to their lines, history chains, cancellation stamps and one cart line a product |
| `StockLaws.RunKeepsWellFormed` | backend/app/modules/catalog/models.py:102-106 | The same over every run of requests |
| `StockLaws.SlackLaw` | backend/app/modules/orders/service.py:48-181 | The exact change each request makes to reserved minus open demand, per product, on covered and uncovered tables alike: what the clamp swallows when an open order's lines move, minus what a cancel at `paid` takes, plus or minus the demand of an admin move out of or into `awaiting_payment` |
| `StockRuns.AccountsKeptIff` | backend/app/modules/orders/service.py:48-181 | Reserved stock stays equal to open demand for all products through a request if and only if the request is on the books |
| `StockRuns.ReservationsAreOpenDemand` | backend/app/modules/orders/service.py:48-172 | In every run on the books each product's `stock_reserved` is the sum of its quantities over all orders awaiting payment |
| `StockRuns.SupplyGoesIff` | backend/app/modules/catalog/inventory_service.py:100-135 | A restock or an adjustment goes through exactly if the reservations stay within the new total |
| `StockRuns.CoverageKeptIff` | backend/app/modules/orders/service.py:156-181 | After a request reservations cover open demand if and only if it leaves no product short, whether or not they did before; from covered tables only a cancel at `paid` and an admin move to `awaiting_payment` can uncover any |
| `StockRuns.OpenOrdersMoveExactly` | backend/app/modules/catalog/inventory_service.py:55-98 | Releasing or committing an order awaiting payment moves its exact quantities: no `max(0, ...)` clamps |
| `StockRuns.HistoryExplainsStep` | backend/app/modules/catalog/inventory_service.py:29-135 | Each request changes a row by exactly what it writes to the inventory history plus what the `max(0, ...)` clamps swallow, on covered and uncovered tables alike |
| `StockRuns.ClampsAreLoose` | backend/app/modules/catalog/inventory_service.py:55-98 | While open orders are covered, no request but a cancel at `paid` is clamped |
| `StockRuns.HistoryExplainsRun` | backend/app/modules/catalog/inventory_service.py:29-135 | In every run from an empty shop, loose moves included, each row is its initial stock plus its history sums plus what the clamps swallowed |
| `StockRuns.StockIsConserved` | backend/app/modules/catalog/inventory_service.py:29-135 | In a run without the two loose moves: open orders stay covered, units on hand plus purchased minus supplied are constant, and the history sums reproduce the reservations |
| `StockRuns.StockFromCreation` | backend/app/modules/catalog/inventory_service.py:29-135 | In every run from an empty shop without the two loose moves, for every product: units on hand plus units purchased are the initial stock plus all restocks and adjustments, reserved stock is the sum of its history, and it covers the open demand |
| `StockBreaks.LateCancelUncoversOpenOrder` | backend/app/modules/orders/service.py:162-172 | A concrete run in which cancelling a paid order leaves three units of another open order without reservation |
| `StockBreaks.ReopenedOrderIsUncovered` | backend/app/modules/orders/service.py:174-181 | A concrete run in which an admin reopens a failed order and four units of open demand have no reservation |
| `StockBreaks.SecondPaymentIsUndone` | backend/app/modules/payments/service.py:34-97 | A concrete run from an empty shop in which a second payment for a failed order stays initiated, whatever the gateway answered |
| `StockMoves.MoveLinesSnoc` | backend/app/modules/catalog/inventory_service.py:29-98 | Moving lines one after the other, with the clamps, is moving each product once by all its lines' units |
| `StockMoves.LineMovementsEffect` | backend/app/modules/catalog/inventory_service.py:44-98 | The history rows written for an order account for exactly its quantities, per kind and product |
| `MoneyLaws.OrdersEvolve` | backend/app/modules/orders/service.py:96-181 | A request leaves each order as it was or one allowed move further, with one history row; only checkout adds an order |
| `MoneyLaws.OrdersAreSnapshots` | backend/app/modules/orders/service.py:64-84 | Owner, lines, unit prices and total of an order never change after checkout, and its history only grows |
| `MoneyLaws.OrderHistoriesArePaths` | backend/app/modules/orders/service.py:96-120 | In every run each history is a path from `pending` to the current status that enters `paid` at most once and never returns to payment, fulfils step by step, ends at `cancelled`/`refunded`; `cancelled_at` is set exactly if cancelled |
| `MoneyLaws.WhoMovesOrders` | backend/app/modules/orders/service.py:122-192 | An order's status changes only by an admin move to the named status, a cancel by its owner or a privileged user, or a callback while it awaits payment |
| `MoveLaws.AdminMovesIff` | backend/app/modules/orders/service.py:96-120 | An admin's request moves an order, and only it, by one step with one history row exactly for the moves of the table; any other request changes nothing |
| `MoveLaws.CancelMovesIff` | backend/app/modules/orders/service.py:156-172 | A cancel goes through exactly for the owner or a privileged user, for an order awaiting payment, paid, processing or failed |
| `MoveLaws.CallbackMovesIff` | backend/app/modules/orders/service.py:122-154 | A first answered callback moves its order to `paid` or `payment_failed` by the verdict exactly if it awaits payment |
| `MoveLaws.FulfilmentGoesThrough` | backend/app/modules/orders/models.py:26-40 | From `paid` an order is really processed, shipped, completed and refunded, request by request, and its total reaches the wallet |
| `MoneyLaws.PaymentsEvolve` | backend/app/modules/payments/service.py:28-97 | A request leaves the payments alone, appends a fresh one, or settles exactly one initiated payment together with its order |
| `MoneyLaws.CallbackSettlesIff` | backend/app/modules/payments/service.py:59-97 | Once the gateway has answered, a first callback settles its payment if and only if the order awaits payment, as verified exactly if the gateway accepted; otherwise nothing changes |
| `MoneyLaws.PaymentsAreFinal` | backend/app/modules/payments/service.py:59-75 | `verified` and `failed` are final over every run, and an authority never changes |
| `MoneyLaws.SettledCallbackIsReplay` | backend/app/modules/payments/service.py:64-75 | After any run, a further callback for a settled payment changes no table, whatever it claims |
| `MoneyLaws.OneCallbackWins` | backend/app/modules/payments/repository.py:24-40 | Over every run at most one callback settles a payment, and one has exactly if it is no longer initiated |
| `MoneyLaws.OneVerifiedPaymentPerOrder` | backend/app/modules/payments/service.py:28-97 | In every run from an empty shop two verified payments belong to different orders; a payment's amount is its order's total; a verified one has the `awaiting_payment` to `paid` step in the history; `pending` is never committed |
| `MoneyLaws.PayingAgainIsUndone` | backend/app/modules/payments/service.py:34-35 | A failed order accepts a new payment, and every callback for it is undone while the order stays failed |
| `MoneyLaws.FailedOrderNeedsAdmin` | backend/app/modules/orders/models.py:26-40 | Without an admin move a failed order stays failed or ends cancelled, whatever payments and callbacks follow |
| `MoneyLaws.UnitsSoldWerePaidFor` | backend/app/modules/orders/service.py:122-136 | In every run the units purchased in the inventory history equal the units in orders of verified payments, per product |
| `RefundLaws.RefundExactlyOnce` | backend/app/modules/orders/router.py:105-127 | In every run a customer's ledger holds one refund entry over the total for each refunded order of theirs, none for any other order; every refunded order has `paid` in its history; all refunds sum to the refunded totals |
| `PaidLaws.VerifiedIffNotPaidByAdmin` | backend/app/modules/orders/service.py:122-181 | In every run an order that entered `paid`, so every refunded one, has a verified payment if and only if no admin moved it to `paid`; an order that never entered `paid` has none |
| `PaidLaws.EntersPaid` | backend/app/modules/orders/service.py:122-181 | A request enters `paid` in an order's history exactly if it is an admin's move there or a callback that settles an accepted payment of it |
| `StockBreaks.RefundWithoutPayment` | backend/app/modules/orders/router.py:105-127 | A concrete run from an empty shop in which an admin marks an order as paid and refunds it, and the wallet holds its total although no payment exists |
| `RefundLaws.WalletsKeepBooks` | backend/app/modules/wallet/service.py:43-97 | In every run each wallet's balance is the signed sum of its ledger, each `balance_after` the prefix sum, and no prefix is negative |
| `Ledger.PostedKeepsBooks` | backend/app/modules/wallet/service.py:43-76 | One posting succeeds if and only if it is a credit or covered by the balance, and then keeps the books and extends the ledger |
| `Ledger.PostedByKind` | backend/app/modules/wallet/service.py:58-76 | Deposits, refunds and admin credits always go through and raise the balance by the amount; purchases and admin debits go through exactly if covered and lower it by the amount |
| `Ledger.BalanceByKind` | backend/app/modules/wallet/models.py:23-28 | A kept balance is the deposits, refunds and admin credits of the ledger less its purchases and admin debits |
| `BalanceLaws.BalanceIsMoneyMoved` | backend/app/modules/wallet/service.py:78-119 | In every run the balance is what committed deposits, admin credits and refunds moved in less what admin debits took out, and the ledger lists exactly these, with kind, amount and order, in order |
| `BalanceLaws.MoneyGoesIff` | backend/app/modules/wallet/service.py:58-61 | In every run a deposit or admin credit goes through exactly if it is positive, an admin debit exactly if it is positive and covered by what was moved before |
| `CheckoutLaws.CheckoutIffEachLineAvailable` | backend/app/modules/orders/service.py:31-94 | With one line a product, checkout succeeds if and only if the cart is not empty and each product is active with its quantity available at the start |
| `CheckoutLaws.CheckoutEffect` | backend/app/modules/orders/service.py:48-94 | A successful checkout reserves exactly each line, touches no other row, empties the cart, and its total is the sum of its lines and the total of the cart summary |
| `CheckoutLaws.CheckoutCharges` | backend/app/modules/orders/service.py:57-76 | After a checkout each line's unit price is its product's discount, or its list price if there is none, and the total is the sum of these times the quantities |
| `CheckoutLaws.CheckoutIgnoresLineOrder` | backend/app/modules/orders/service.py:48-83 | Success, the resulting stock and the total do not depend on the order of the cart lines |
| `CheckoutLaws.NextLine` | backend/app/modules/orders/service.py:48-83 | A line passes its checks if and only if one more line fits the whole cart's demand, and then moves the tables exactly one line on |
| `CheckoutLaws.OrderTotalIsSummary` | backend/app/modules/cart/service.py:80-104 | On products on sale the order total is the total the cart summary shows |
| `CheckoutLaws.SummaryShowsWhatItAdds` | backend/app/modules/cart/service.py:80-104 | The summary's total is the sum over the lines it shows, and it shows the whole cart exactly if all of it is on sale |
| `CheckoutLaws.SummaryItemsAre` | backend/app/modules/cart/service.py:80-104 | Each row of the page is an active product of the cart at its discount or list price, with its subtotal and what is available |
| `CheckoutLaws.ShownIffActive` | backend/app/modules/cart/service.py:85-88 | The page shows each line as often as the cart has it if its product is active, and not at all otherwise |
| `CheckoutLaws.AddItemAddsQuantity` | backend/app/modules/cart/service.py:32-52 | Adding raises the demand for that product by the quantity, for no other, within what is available |
| `CheckoutLaws.AddItemGoesIff` | backend/app/modules/cart/service.py:32-52 | An item is added exactly for 1 to 99 units of an active product whose stock covers them together with those in the cart |
| `CheckoutLaws.UpdateItemSetsQuantity` | backend/app/modules/cart/service.py:54-68 | Updating replaces the demand for that product, and no other, within what is available |
| `CheckoutLaws.UpdateItemGoesIff` | backend/app/modules/cart/service.py:54-68 | A quantity is set exactly for 1 to 99 available units of an existing product that is in the cart |
| `CheckoutLaws.RemoveItemRemovesQuantity` | backend/app/modules/cart/service.py:70-74 | Removing takes out the demand for that product and no other |
| `CartLaws.CartsHoldWhatWasPutIn` | backend/app/modules/cart/service.py:32-78 | In every run the cart's demand for each product is what its owner's committed requests put in, set or removed since it was last emptied by clearing or checkout |
| `PriceLaws.OrdersAreChargedAtCheckout` | backend/app/modules/orders/service.py:57-85 | In every run an order's unit prices and total are the discounts or list prices of its products as they stood at its checkout, whatever was updated later |
| `PriceLaws.ProductsAreLastWritten` | backend/app/modules/catalog/service.py:121-182 | In every run a product is what was last written, its price is positive and its discount below its price |
| `PriceLaws.ProductGoesIff` | backend/app/modules/catalog/service.py:157-182 | A product is created exactly if new and updated exactly if known, with a positive price above its discount |
| `Services.Session.ReserveStock` | backend/app/modules/catalog/inventory_service.py:29-53 | Reserves and records exactly if the row exists and enough is available, else changes nothing |
| `Services.Session.ReleaseStock` | backend/app/modules/catalog/inventory_service.py:55-75 | Releases with the clamp at zero and records it |
| `Services.Session.CommitPurchase` | backend/app/modules/catalog/inventory_service.py:77-98 | Lowers total and reserved with their clamps and records it |
| `Services.Session.RestockRow` | backend/app/modules/catalog/inventory_service.py:100-114 | Adds to the total and records it |
| `Services.Session.AdjustRow` | backend/app/modules/catalog/inventory_service.py:116-135 | Changes the total by the delta exactly if it stays at or above the reservations |
| `Services.Session.AddToCart` | backend/app/modules/cart/service.py:32-52 | Is the cart transaction, with the error for a missing product and for missing stock |
| `Services.Session.UpdateCartItem` | backend/app/modules/cart/service.py:54-68 | Is the cart transaction; conflict exactly if the product exists and the quantity is not available |
| `Services.Session.GetSummary` | backend/app/modules/cart/service.py:80-104 | Its loop returns the active lines with discount or list price, subtotal and available units, and the total of the subtotals |
| `Services.Session.Transition` | backend/app/modules/orders/service.py:96-120 | Moves the order, appends its history row and stamps a cancellation exactly for the fourteen moves |
| `Services.Session.OrderLine` | backend/app/modules/orders/service.py:48-83 | One pass of the checkout loop: reserves the line and answers the product's discount or list price, or the whole checkout is impossible |
| `Services.Session.PlaceOrder` | backend/app/modules/orders/service.py:31-94 | Reserving line by line succeeds exactly when the cart as a whole fits the stock, and then is the checkout transaction, charged line by line at discount or list price |
| `Services.Session.MarkPaid` | backend/app/modules/orders/service.py:122-136 | The commit loop and transition are the closed-form purchase of all lines |
| `Services.Session.MarkPaymentFailed` | backend/app/modules/orders/service.py:138-154 | The release loop and transition are the closed-form release of all lines |
| `Services.Session.Cancel` | backend/app/modules/orders/service.py:156-172 | Is the cancel transaction; permission is denied exactly to users who are neither owner nor privileged |
| `Services.Session.AdminUpdateStatus` | backend/app/modules/orders/service.py:174-181 | Moves the status alone, of this order alone, exactly for the fourteen moves, with its two errors |
| `Services.Session.ApplyToWallet` | backend/app/modules/wallet/service.py:43-76 | Per kind: a deposit, refund or admin credit raises the balance by the amount, a purchase or admin debit lowers it and is refused exactly if not covered; balance and ledger entry change together |
| `Services.Session.StartPayment` | backend/app/modules/payments/service.py:28-57 | Is the payment-init transaction: an initiated payment of the order's total |
| `Services.Session.TryClaim` | backend/app/modules/payments/repository.py:24-40 | Changes the row and returns true exactly if the status was the expected one |
| `Services.Session.HandleCallback` | backend/app/modules/payments/service.py:59-97 | Claim, verify, settle is the callback transaction, and the answer is the stored status |
| `Services.Session.CheckoutRoute` | backend/app/modules/orders/router.py:46-57 | Commits exactly the checkout transaction, or leaves the committed tables alone |
| `Services.Session.InitPaymentRoute` | backend/app/modules/payments/router.py:15-26 | Commits exactly the payment-init transaction, or nothing |
| `Services.Session.CallbackRoute` | backend/app/modules/payments/router.py:29-42 | Commits exactly the callback transaction, or nothing |
| `Services.Session.CancelRoute` | backend/app/modules/orders/router.py:80-87 | Commits exactly the cancel transaction, or nothing |
| `Services.Session.UpdateStatusRoute` | backend/app/modules/orders/router.py:105-127 | The status move and the refund it triggers commit together or not at all |
| `Services.Session.RestockRoute` | backend/app/modules/catalog/router.py:254-266 | Commits the restock exactly if the check constraints hold afterwards |
| `Services.Session.AdjustRoute` | backend/app/modules/catalog/router.py:269-281 | Commits exactly the adjustment, or nothing |
| `Services.Session.DepositRoute` | backend/app/modules/wallet/router.py:47-62 | Commits exactly the deposit |
| `CallbackRace.OneCallbackWinsTheRace` | backend/app/modules/payments/repository.py:24-40 | Over every interleaving of callbacks for one authority, with all other routes and each settlement as one serial step: the committed tables are a serial run of the committed transactions, at most one callback wins, one has exactly if the payment is final, `pending` is never committed, and winners and replays report the final status |
| `CallbackRace.LateCallbacksChangeNothing` | backend/app/modules/payments/service.py:64-75 | Once the payment is final no step of any callback for it changes a committed table |
| `OrderRace.PathIffSettlementsFresh` | backend/app/modules/orders/service.py:96-154 | Callbacks for several payments of one order, reading the order unlocked before they commit, and other moves of it: over every interleaving its history is a path if and only if every settlement found the status it had read, and then at most one payment is verified |
| `OrderRace.OneVerifiedIffSettlementsFresh` | backend/app/modules/orders/service.py:122-136 | Among accepted callbacks alone at most one payment of the order is verified if and only if no settlement was overtaken after its read |
| `OrderRace.TwoPaymentsVerified` | backend/app/modules/orders/repository.py:14-18 | A concrete interleaving in which two callbacks read the order before either commits, and both payments are verified |
| `WalletRace.InterleavingsAreSerial` | backend/app/modules/wallet/service.py:43-76 | Over every interleaving of first read, lock, write, commit and crash in which a lock leaves the session with the current balance, the committed wallets are those of the commits run serially: books kept, no entry lost |
| `WalletRace.BooksKeptIffLocksFresh` | backend/app/modules/wallet/service.py:53-76 | Over every interleaving every wallet keeps its books if and only if no committed request took its lock on a stale read: the lock refreshed the session's balance, or the balance had not changed since it was read |
| `WalletRace.FreshCommitsIff` | backend/app/modules/wallet/service.py:54-64 | The balance written is computed from the current one in every commit if and only if it was current in the session when each committed request took its lock |
| `WalletRace.NoEntryIsLost` | backend/app/modules/wallet/service.py:64-75 | Over every interleaving, stale reads included, each ledger lists exactly the committed changes in commit order |
| `WalletRace.StaleReadLosesMoney` | backend/app/modules/wallet/service.py:54-63 | A concrete run of two deposits in which a session that keeps its unlocked first read overwrites the other's balance |
| `WalletRace.OneHolderPerWallet` | backend/app/modules/wallet/service.py:53-56 | Two requests never hold the same wallet row |
| `IdempotencyRace.ExactlyOnceUnderRaces` | backend/app/common/idempotency.py:73-98 | Over every interleaving at most one request per key is executing, at most one ever commits its effect, and it commits it once |
| `IdempotencyRace.LosersReadFinishedRows` | backend/app/common/idempotency.py:75-98 | A loser reads a completed row: the response and body of the one winner of its key |
| `IdempotencyRace.CommittedRowsAreCompleted` | backend/app/common/idempotency.py:75-80 | No committed row is still pending |
| `IdempotencyRace.RaisedKeyIsFree` | backend/app/common/idempotency.py:64-100 | An insert waits while the key is held, and goes through once the holder has raised or crashed |
| `IdempotencyRace.InterleavingsAreGuarded` | backend/app/common/idempotency.py:64-100 | Every interleaving is the serial guard run over the decided requests in the order of their decisions: the same records, the same effects, the same answer to each request; crashed requests leave no trace |
| `Idempotency.GuardIsDeduplication` | backend/app/common/idempotency.py:64-100 | For any business step and any mix of guarded and unguarded requests, the final state is that of the run with keyless and duplicate requests dropped |
| `Idempotency.AnswersOfARun` | backend/app/common/idempotency.py:87-98 | Replays and refusals are exactly the duplicates: the same body gets the first response, another body is refused; keyless requests get the key error |
| `Idempotency.AnsweredBySameKey` | backend/app/common/idempotency.py:82-98 | Behind every replay and refusal stands an earlier committed request of the same user, operation and key, with the same body exactly if it is a replay |
| `Idempotency.SameKeyIsAnswered` | backend/app/common/idempotency.py:82-98 | A committed request answers every later one of the same user, operation and key |
| `Idempotency.OneCommitPerKey` | backend/app/common/idempotency.py:73-98 | No two requests of a run commit under one key |
| `Idempotency.RejectionLeavesKeyFree` | backend/app/common/idempotency.py:64-100 | Over every run a request is executed if and only if every earlier request under its key was rejected, and then it answers what the business step answers on the tables of the run without duplicates |
| `Idempotency.Route.FinishRecord` | backend/app/common/idempotency.py:36-39 | Completes the record with the response to replay |
| `Idempotency.Route.Handle` | backend/app/common/idempotency.py:42-102 | Insert, conflict path, business step, finish and commit are the guarded transaction |
| `GuardedShop.GuardedRunIsShopRun` | backend/app/common/idempotency.py:64-100 | A run of the shop behind its routes, with any retries, is a serial run of its requests without them |
| `GuardedShop.RetriesKeepMoneyLaws` | backend/app/common/idempotency.py:64-100 | However often requests are retried, wallets keep their books and each refund is paid once |
| `GuardedShop.ReplayAnswersSameRequestIff` | backend/app/common/idempotency.py:60-98 | A call under a committed key is replayed exactly if the bodies agree; the replay answers what was asked if and only if the calls also name the same wallet in a path that has one, which is not hashed |
| `GuardedShop.CreditReplayedForOtherWallet` | backend/app/modules/wallet/router.py:78-97 | A concrete run in which a credit to one wallet is answered with the credit of another and changes nothing |
| `ParentMap.RepointKeepsAcyclicIff` | backend/app/modules/catalog/service.py:59-77 | Pointing a category at a new parent keeps the map acyclic if and only if the new parent is not in its subtree |
| `Categories.GroupByParent` | backend/app/modules/catalog/repository.py:44-47 | The grouping loop gives each parent exactly its children in listing order |
| `Categories.Discover` | backend/app/modules/catalog/repository.py:53-56 | The inner loop adds exactly the unseen children to the set and to the frontier |
| `Categories.GetDescendantIds` | backend/app/modules/catalog/repository.py:41-57 | Terminates on any table, cyclic or not, and returns exactly the ids whose parent chain reaches the start in one or more steps; on a forest not the start |
| `CategoryTree.FlattenCategories` | frontend/src/api/catalog.ts:42-52 | The recursive walk is the preorder of the nested tree |
| `CategoryTree.TreeBuilder.Attach` | backend/app/modules/catalog/service.py:101-104 | Terminates on a forest and assigns every node of the subtree its children in listing order |
| `CategoryTree.GetTree` | backend/app/modules/catalog/service.py:91-108 | The two passes build the tree of the table |
| `CategoryTree.FlattenKeepsSiblings` | frontend/src/api/catalog.ts:42-52 | Flattening the tree keeps under every parent exactly the rows of the table, in `list_all` order |
| `CategoryTree.FlattenIsPermutation` | frontend/src/api/catalog.ts:42-52 | Flattening the tree of a forest is a permutation of the table: every category exactly once |
| `CategoryTree.FlattenParentsFirst` | frontend/src/api/catalog.ts:42-52 | In the flattened tree every category comes after its parent |
| `CategoryTree.NestedIff` | backend/app/modules/catalog/service.py:91-108 | The nested response lists a category among the children of another exactly if that is its parent in the table |
| `CategoryTree.TopIff` | backend/app/modules/catalog/service.py:91-108 | The top of the response lists exactly the categories without a parent |
| `CategoryService.MoveRejectsExactlyCycles` | backend/app/modules/catalog/service.py:64-74 | `move` to an existing parent is accepted if and only if the moved pointers are still a forest |
| `CategoryService.MoveShowsInTree` | backend/app/modules/catalog/service.py:59-77 | After a move the response lists the category among the children of its new parent and nowhere else, or at the top if it has none |
| `CategoryService.ChildrenAreSorted` | backend/app/modules/catalog/repository.py:35-39 | The children of every node of the response are ordered by sort order, and by name where that is equal |
| `CategoryService.StepKeepsGood` | backend/app/modules/catalog/service.py:27-111 | Every request keeps a forest in listing order, and a cached tree equal to the tree of the table |
| `CategoryService.RunKeepsForest` | backend/app/modules/catalog/service.py:27-111 | Along every run the table is a forest that flattens back to itself, parents first, siblings in order, and the cache is absent or fresh |
| `CategoryService.Service.Create` | backend/app/modules/catalog/service.py:27-42 | Succeeds exactly for a free slug and a known parent, or none; then adds exactly this row with its parent pointer, drops the cache and changes nothing else |
| `CategoryService.Service.Update` | backend/app/modules/catalog/service.py:44-57 | Replaces exactly this row by one with the given name, flag and sort order, keeping id, slug and parent; the parent map stays |
| `CategoryService.Service.Move` | backend/app/modules/catalog/service.py:59-77 | Changes exactly the parent pointer of this category; conflict exactly for itself or a descendant, not found exactly for unknown ids; a failure changes nothing |
| `CategoryService.Service.Delete` | backend/app/modules/catalog/service.py:79-89 | Removes exactly this row, exactly if it is known, has no children and no products |
| `CategoryService.Service.HasChildren` | backend/app/modules/catalog/repository.py:68-72 | True exactly if the listing has rows under the category |
| `CategoryService.Service.GetCategoryTree` | backend/app/modules/catalog/router.py:71-83 | The cache-aside read answers with the tree of the table, cached or not |
| `RefreshTokens.FamiliesArePaths` | backend/app/modules/auth/service.py:79-146 | In every run the `replaced_by_id` links of a family form one simple path through all its tokens, oldest first, of one user, of which only the last can be unrevoked |
| `RefreshTokens.OneLiveToken` | backend/app/modules/auth/service.py:113-146 | In every run a family has at most one unrevoked token |
| `RefreshTokens.ReuseKillsForGood` | backend/app/modules/auth/service.py:123-131 | In every run, once a revoked token has been presented its family has no live token at any later time |
| `RefreshTokens.DeadStaysDead` | backend/app/modules/auth/service.py:113-159 | A dead family never gains a live token again, and no revocation is undone or re-dated |
| `RefreshTokens.RotationMovesLife` | backend/app/modules/auth/service.py:140-146 | A rotation makes the new token the one live token of the family, for the same user, linked from the presented one |
| `RefreshTokens.ReplacedInTime` | backend/app/modules/auth/service.py:133-146 | In every run a token with a successor was replaced by a refresh of its own while live, by an active user, dated no later than its expiry |
| `RefreshTokens.PasswordEndsSessions` | backend/app/modules/auth/service.py:153-188 | In every run no token that a user had when the password changed is live at any later time |
| `RefreshTokens.AuthService.IssueTokenPair` | backend/app/modules/auth/service.py:79-86 | Starts a fresh family with one live token |
| `RefreshTokens.AuthService.RevokeTokensOfFamily` | backend/app/modules/auth/repository.py:64-71 | The loop revokes exactly the live tokens of the family |
| `RefreshTokens.AuthService.RevokeAllForUser` | backend/app/modules/auth/repository.py:73-80 | The loop revokes exactly the live tokens of the user |
| `RefreshTokens.AuthService.RotateRefreshToken` | backend/app/modules/auth/service.py:113-146 | Succeeds exactly for a live, unexpired token of an active user, and then revokes and links it and adds one; on reuse exactly its family is revoked although the request fails; any other failure changes nothing |
| `RefreshTokens.AuthService.LogoutToken` | backend/app/modules/auth/service.py:148-151 | Revokes the presented token if it is live |
| `RefreshTokens.AuthService.ChangePassword` | backend/app/modules/auth/service.py:153-159 | With the current password, sets the new one and revokes every live token of the user; without it changes nothing |
| `RefreshTokens.AuthService.ConfirmPasswordReset` | backend/app/modules/auth/service.py:177-188 | With an unused, unexpired reset token of an existing user, sets the password, revokes every live token of the user, and leaves the reset token unusable at any time; otherwise changes nothing |
| `Tickets.AutoCloseExactlyOnce` | backend/app/tasks/ticket_tasks.py:40-76 | Over every interleaving of workers and humans: closes by the job, system messages and audit rows of a ticket are equal in number and at most one a wait, each worker's count is what it closed, and closed tickets have `closed_at` |
| `Tickets.ClosesStaleIff` | backend/app/tasks/ticket_tasks.py:26-76 | Whatever happens between pick and close, the job closes a waiting candidate with its message, audit row and count and leaves any other alone; the closed ticket is still stale if and only if no reply to it was written since the pick or the last one is dated before the cutoff |
| `Tickets.JobClosesAnsweredTicket` | backend/app/tasks/ticket_tasks.py:46-56 | A concrete run in which a ticket that never stopped waiting is answered again by support and closed one time unit later |
| `Tickets.JobClosesFreshWait` | backend/app/tasks/ticket_tasks.py:46-56 | A concrete run in which a ticket leaves `waiting_for_customer`, re-enters it, and is closed in its new wait one time unit later |
| `Tickets.TicketClosedTwice` | backend/app/tasks/ticket_tasks.py:46-76 | A concrete run in which a ticket set back to waiting by hand is closed by the job a second time: its second wait |
| `Tickets.ReopensIff` | backend/app/modules/tickets/service.py:64-113 | However long a ticket has been closed, an event reopens it if and only if it writes another status than its session read; a reply can do so only if its session was open before the close |
| `Tickets.UninterruptedJob` | backend/app/tasks/ticket_tasks.py:26-78 | Without interference the interleaved job closes, notes, audits and counts everything it picked, and that many fewer tickets are stale |
| `Tickets.RunsCloseBatches` | backend/app/tasks/ticket_tasks.py:30-38 | With a fixed cutoff each run closes up to a hundred stale tickets: `k` runs leave what lies beyond `k` batches |
| `Tickets.BatchesCloseEverything` | backend/app/tasks/ticket_tasks.py:30-38 | All stale tickets are closed if and only if at least as many runs were made as there are batches, and later runs pick none |
| `Tickets.TicketStore.AutoCloseStaleTickets` | backend/app/tasks/ticket_tasks.py:26-78 | The loop closes its candidates with one message and one audit row each, and returns their number |
| `Tickets.TicketStore.CreateTicket` | backend/app/modules/tickets/service.py:25-54 | A new ticket waits for support, with the customer's message |
| `Tickets.TicketStore.AddCustomerReply` | backend/app/modules/tickets/service.py:64-83 | Only the owner replies, never to a closed ticket; the ticket then waits for support |
| `Tickets.TicketStore.AddSupportReply` | backend/app/modules/tickets/service.py:85-104 | Never to a closed ticket; the ticket then waits for the customer |
| `Tickets.TicketStore.SetStatus` | backend/app/modules/tickets/service.py:106-113 | Sets any status, and `closed_at` on closing |
| `Usernames.FindUsername` | backend/app/modules/auth/service.py:229-234 | Terminates after at most one more lookup than there are users, on an unused name with the smallest free suffix |
| `Usernames.BaseUsername` | backend/app/modules/auth/service.py:229 | The name starts from what precedes the first `@`, cut at forty characters, or from `user` if that is empty |
| `Usernames.TakenCandidatesBound` | backend/app/modules/auth/service.py:231-234 | If the first `n` names are taken there are at least `n` users |
| `Usernames.CandidatesDiffer` | backend/app/modules/auth/service.py:234 | Different suffixes give different names |
| `Usernames.UsernameFitsColumn` | backend/app/modules/auth/service.py:229-234 | With fewer than ten billion users the name has at most fifty characters |

## Left out

- Reports, pagination, permission sets, audit listing, seed data, migrations and the React UI: queries and plumbing.
- JWT, CSRF, Argon2, random tokens, PKCE and ID-token checks: hashing and outside services.
- E-mail verification tokens: their single use is that of a reset token, without further effect.
- SQLAlchemy flush order and identity map: whether a locked wallet row replaces an earlier read is an input of `WalletRace`; elsewhere a row read under a lock is taken as current.
- OrderRace.PathIffSettlementsFresh: stock is not part of that model; `StockLaws` treats settlements as serial.
- Deadlocks and concurrent checkouts of several products: the code fixes no lock order, so routes over several rows are serial here.
- Idempotency `expires_at`: stored but never read, so keys do not expire.
- Product, featured, popular and home caches: they embed stock that stock movements do not invalidate; only the category-tree cache is modelled, with serial reads and writes.
- Cart removal and clearing, admin wallet credit and debit, and product creation and update appear as transactions of every run but not as methods; archiving a product is an update of its `active` flag.
- Shipping addresses, notes, actors, timestamps of history rows, product names and SKUs: stored, never decided on.
- Ticket subject, priority, message bodies and listing: stored, never decided on.
- The conflict-free insert that creates a wallet: a wallet without a row reads as an empty one.
- IdempotencyRace.InterleavingsAreGuarded: the answer of each business step is fixed by its request, so what the steps read of each other's rows is not modelled there.
- Usernames.FindUsername: the set of taken names is fixed during the loop; a name taken in between fails on the unique constraint.
