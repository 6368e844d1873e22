/**
 * The services as they run: a database session stages changes row by row and line by line, and a route
 * commits them or drops them. Every method is proved against the closed-form transactions of `Shop`.
 */
module Services {
  import opened Prelude
  import opened Sums
  import opened OrderGraph
  import opened Ledger
  import opened Shop
  import opened StockMoves
  import opened StockLaws
  import opened CheckoutLaws

  class Session {
    /** What other sessions see. */
    var committed: Shop

    // The rows of this session, changed in place.
    var products: map<ProductId, Product>
    var stock: map<ProductId, Stock>
    var movements: seq<Movement>
    var carts: map<UserId, seq<Line>>
    var orders: seq<Order>
    var payments: seq<Payment>
    var wallets: map<UserId, Wallet>

    ghost function Staged(): Shop
      reads this
    {
      Shop(products, stock, movements, carts, orders, payments, wallets)
    }

    /** Nothing staged, on tables that every transaction keeps well-formed. */
    ghost predicate Clean()
      reads this
    {
      Staged() == committed && WellFormed(committed)
    }

    constructor (tables: Shop)
      ensures committed == tables && Staged() == tables
    {
      committed := tables;
      products, stock, movements, carts := tables.products, tables.stock, tables.movements, tables.carts;
      orders, payments, wallets := tables.orders, tables.payments, tables.wallets;
    }

    method Rollback()
      modifies this
      ensures committed == old(committed) && Staged() == committed
    {
      products, stock, movements, carts := committed.products, committed.stock, committed.movements, committed.carts;
      orders, payments, wallets := committed.orders, committed.payments, committed.wallets;
    }

    /** Flushes under the check constraints of `product_inventory`; a violation undoes everything. */
    method Commit() returns (ok: bool)
      modifies this
      ensures ok <==> forall p :: p in old(stock) ==> old(stock)[p].ChecksHold()
      ensures committed == (if ok then old(Staged()) else old(committed)) && Staged() == committed
    {
      ok := forall p | p in stock :: stock[p].ChecksHold();
      if ok {
        committed := Shop(products, stock, movements, carts, orders, payments, wallets);
      } else {
        Rollback();
      }
    }

    // ---- InventoryService ------------------------------------------------------------------

    method ReserveStock(p: ProductId, quantity: nat, order: OrderId) returns (r: Result<()>)
      modifies this`stock, this`movements
      ensures r.Ok? <==> p in old(stock) && quantity <= old(stock)[p].total - old(stock)[p].reserved
      ensures r.Err? ==> r.error == (if p in old(stock) then Conflict else NotFound)
      ensures r.Err? ==> stock == old(stock) && movements == old(movements)
      ensures r.Ok? ==> stock == old(stock)[p := old(stock)[p].(reserved := old(stock)[p].reserved + quantity)]
      ensures r.Ok? ==> movements == old(movements) + [Movement(p, Reserve, quantity, Some(order))]
    {
      if p !in stock {
        return Err(NotFound);
      }
      var row := stock[p];
      var available := row.total - row.reserved;
      if available < quantity {
        return Err(Conflict);
      }
      stock := stock[p := row.(reserved := row.reserved + quantity)];
      movements := movements + [Movement(p, Reserve, quantity, Some(order))];
      r := Ok(());
    }

    method ReleaseStock(p: ProductId, quantity: nat, order: OrderId) returns (r: Result<()>)
      modifies this`stock, this`movements
      ensures r == if p in old(stock) then Ok(()) else Err(NotFound)
      ensures r.Err? ==> stock == old(stock) && movements == old(movements)
      ensures r.Ok? ==> stock == old(stock)[p := MoveRow(Release, old(stock)[p], quantity)]
      ensures r.Ok? ==> stock[p] == Stock(old(stock)[p].total, Max(0, old(stock)[p].reserved - quantity))
      ensures r.Ok? ==> movements == old(movements) + [Movement(p, Release, quantity, Some(order))]
    {
      if p !in stock {
        return Err(NotFound);
      }
      stock := stock[p := stock[p].(reserved := Max(0, stock[p].reserved - quantity))];
      movements := movements + [Movement(p, Release, quantity, Some(order))];
      r := Ok(());
    }

    method CommitPurchase(p: ProductId, quantity: nat, order: OrderId) returns (r: Result<()>)
      modifies this`stock, this`movements
      ensures r == if p in old(stock) then Ok(()) else Err(NotFound)
      ensures r.Err? ==> stock == old(stock) && movements == old(movements)
      ensures r.Ok? ==> stock == old(stock)[p := MoveRow(Purchase, old(stock)[p], quantity)]
      ensures r.Ok? ==> stock[p] == Stock(Max(0, old(stock)[p].total - quantity), Max(0, old(stock)[p].reserved - quantity))
      ensures r.Ok? ==> movements == old(movements) + [Movement(p, Purchase, quantity, Some(order))]
    {
      if p !in stock {
        return Err(NotFound);
      }
      var row := stock[p];
      row := row.(total := Max(0, row.total - quantity));
      row := row.(reserved := Max(0, row.reserved - quantity));
      stock := stock[p := row];
      movements := movements + [Movement(p, Purchase, quantity, Some(order))];
      r := Ok(());
    }

    method RestockRow(p: ProductId, quantity: int) returns (r: Result<()>)
      modifies this`stock, this`movements
      ensures r == if p in old(stock) then Ok(()) else Err(NotFound)
      ensures r.Err? ==> stock == old(stock) && movements == old(movements)
      ensures r.Ok? ==> stock == old(stock)[p := Stock(old(stock)[p].total + quantity, old(stock)[p].reserved)]
      ensures r.Ok? ==> movements == old(movements) + [Movement(p, Restock, quantity, None)]
    {
      if p !in stock {
        return Err(NotFound);
      }
      stock := stock[p := stock[p].(total := stock[p].total + quantity)];
      movements := movements + [Movement(p, Restock, quantity, None)];
      r := Ok(());
    }

    method AdjustRow(p: ProductId, delta: int) returns (r: Result<()>)
      modifies this`stock, this`movements
      ensures r.Ok? <==> p in old(stock) && old(stock)[p].reserved <= old(stock)[p].total + delta
      ensures r.Err? ==> r.error == if p in old(stock) then Conflict else NotFound
      ensures r.Err? ==> stock == old(stock) && movements == old(movements)
      ensures r.Ok? ==> stock == old(stock)[p := Stock(old(stock)[p].total + delta, old(stock)[p].reserved)]
      ensures r.Ok? ==> movements == old(movements) + [Movement(p, Adjust, delta, None)]
    {
      if p !in stock {
        return Err(NotFound);
      }
      var newTotal := stock[p].total + delta;
      if newTotal < stock[p].reserved {
        return Err(Conflict);
      }
      stock := stock[p := stock[p].(total := newTotal)];
      movements := movements + [Movement(p, Adjust, delta, None)];
      r := Ok(());
    }

    // ---- CartService -----------------------------------------------------------------------

    method AddToCart(user: UserId, p: ProductId, quantity: nat) returns (r: Result<()>)
      requires 1 <= quantity <= 99
      modifies this`carts
      ensures r.Ok? <==> AddItemTx(old(Staged()), user, p, quantity).Some?
      ensures CartOk(CartOf(old(carts), user)) ==>
        (r.Ok? <==>
          && p in products && products[p].active
          && p in stock && Qty(CartOf(old(carts), user), p) + quantity <= stock[p].total - stock[p].reserved)
      ensures r.Ok? ==> Some(Staged()) == AddItemTx(old(Staged()), user, p, quantity)
      ensures r.Err? ==> carts == old(carts) && r.error == if p in products && products[p].active then Conflict else NotFound
    {
      QtyOfFoundIfOk(CartOf(carts, user), p);
      if p !in products || !products[p].active {
        return Err(NotFound);
      }
      var cart := CartOf(carts, user);
      var existing := FindLine(cart, p);
      var newQuantity := quantity + if existing.Some? then cart[existing.value].quantity else 0;
      if newQuantity > AvailableStock(stock, p) {
        return Err(Conflict);
      }
      if existing.Some? {
        carts := carts[user := cart[existing.value := Line(p, newQuantity)]];
      } else {
        carts := carts[user := cart + [Line(p, newQuantity)]];
      }
      r := Ok(());
    }

    method UpdateCartItem(user: UserId, p: ProductId, quantity: nat) returns (r: Result<()>)
      requires 1 <= quantity <= 99
      modifies this`carts
      ensures r.Ok? <==> UpdateItemTx(old(Staged()), user, p, quantity).Some?
      ensures r.Ok? <==>
        && p in products && Listed(CartOf(old(carts), user), p)
        && p in stock && quantity <= stock[p].total - stock[p].reserved
      ensures r.Ok? ==> Some(Staged()) == UpdateItemTx(old(Staged()), user, p, quantity)
      ensures r.Err? ==> carts == old(carts)
      ensures r.Err? ==> r.error == if p in products && quantity > AvailableStock(stock, p) then Conflict else NotFound
    {
      if p !in products {
        return Err(NotFound);
      }
      if quantity > AvailableStock(stock, p) {
        return Err(Conflict);
      }
      var cart := CartOf(carts, user);
      var item := FindLine(cart, p);
      if item.None? {
        return Err(NotFound);
      }
      carts := carts[user := cart[item.value := Line(p, quantity)]];
      r := Ok(());
    }

    method GetSummary(user: UserId) returns (items: seq<SummaryItem>, total: int)
      ensures items == SummaryItems(products, stock, CartOf(carts, user))
      ensures total == Sum(items, Subtotal()) == SummaryTotal(products, CartOf(carts, user))
      ensures forall i :: 0 <= i < |items| ==>
        var p := items[i].line.product;
        && items[i].line == ShownLines(products, CartOf(carts, user))[i]
        && p in products && products[p].active
        && items[i].unitPrice == (match products[p].discount case Some(d) => d case None => products[p].price)
        && items[i].subtotal == items[i].unitPrice * items[i].line.quantity
        && items[i].available == if p in stock then Max(0, stock[p].total - stock[p].reserved) else 0
    {
      items, total := SumUp(CartOf(carts, user));
      SubtotalsAddUp(products, stock, CartOf(carts, user));
      SummaryItemsAre(products, stock, CartOf(carts, user));
      forall i | 0 <= i < |items| ensures ItemIs(products, stock, items[i], ShownLines(products, CartOf(carts, user))[i]) {
      }
    }

    /** The loop over the cart's items. */
    method SumUp(cart: seq<Line>) returns (items: seq<SummaryItem>, total: int)
      ensures items == SummaryItems(products, stock, cart) && total == SummaryTotal(products, cart)
    {
      items, total := [], 0;
      for i := 0 to |cart|
        invariant total == SummaryTotal(products, cart[..i])
        invariant items == SummaryItems(products, stock, cart[..i])
      {
        assert cart[..i + 1] == cart[..i] + [cart[i]];
        SumSnoc(cart[..i], cart[i], SummaryAmount(products));
        ItemsSnoc(products, stock, cart[..i], cart[i]);
        if cart[i].product !in products || !products[cart[i].product].active {
          continue;
        }
        var unitPrice := UnitPrice(products[cart[i].product]);
        var itemSubtotal := unitPrice * cart[i].quantity;
        total := total + itemSubtotal;
        items := items + [SummaryItem(cart[i], unitPrice, itemSubtotal, AvailableStock(stock, cart[i].product))];
      }
      assert cart[..|cart|] == cart;
    }

    // ---- OrderService ----------------------------------------------------------------------

    method Transition(id: OrderId, to: OrderStatus) returns (r: Result<()>)
      requires id < |orders|
      modifies this`orders
      ensures r == if (old(orders)[id].status, to) in MOVES then Ok(()) else Err(Conflict)
      ensures orders == if r.Ok? then old(orders)[id := MovedOrder(old(orders)[id], to)] else old(orders)
      ensures r.Ok? ==>
        && orders[id].status == to
        && orders[id].history == old(orders)[id].history + [HistoryEntry(old(orders)[id].status, to)]
        && (orders[id].cancelStamped <==> old(orders)[id].cancelStamped || to == Cancelled)
    {
      AllowedAreMoves(orders[id].status, to);
      var order := orders[id];
      if to !in AllowedTransitions(order.status) {
        return Err(Conflict);
      }
      var entry := HistoryEntry(order.status, to);
      order := order.(history := order.history + [entry], status := to);
      if to == Cancelled {
        order := order.(cancelStamped := true);
      }
      orders := orders[id := order];
      r := Ok(());
    }

    /** The body of the checkout loop for line `i`: price it, then reserve it. */
    method OrderLine(ghost start: Shop, user: UserId, cart: seq<Line>, i: nat, id: OrderId) returns (r: Result<nat>)
      requires i < |cart| && id == |start.orders| && cart == CartOf(start.carts, user)
      requires Staged() == AtLine(start, user, cart, i) && Fits(start, cart, i)
      modifies this`stock, this`movements
      ensures r.Ok? ==> Staged() == AtLine(start, user, cart, i + 1) && Fits(start, cart, i + 1)
      ensures r.Ok? ==> cart[i].product in start.products && r.value == UnitPrice(start.products[cart[i].product])
      ensures r.Ok? ==>
        r.value == match start.products[cart[i].product].discount
                   case Some(d) => d
                   case None => start.products[cart[i].product].price
      ensures r.Err? ==> !CanCheckout(start, user)
    {
      NextLine(start, user, cart, i);
      var item := cart[i];
      if item.product !in products || !products[item.product].active {
        return Err(Conflict);
      }
      var unitPrice := UnitPrice(products[item.product]);
      var reserved := ReserveStock(item.product, item.quantity, id);
      if reserved.Err? {
        return Err(reserved.error);
      }
      r := Ok(unitPrice);
    }

    /** Reserves line by line; whatever fails, the route drops what was staged before it. */
    method PlaceOrder(user: UserId) returns (r: Result<OrderId>)
      modifies this`stock, this`movements, this`orders, this`carts
      ensures r.Ok? <==> CanCheckout(old(Staged()), user)
      ensures r.Ok? ==> Some(Staged()) == CheckoutTx(old(Staged()), user) && r.value == |old(orders)|
      ensures r.Ok? ==>
        var cart, o := CartOf(old(carts), user), orders[|orders| - 1];
        && |o.unitPrices| == |cart|
        && (forall i :: 0 <= i < |cart| ==>
              && cart[i].product in products
              && o.unitPrices[i] == match products[cart[i].product].discount
                                    case Some(d) => d
                                    case None => products[cart[i].product].price)
        && o.total == Sum(cart, ChargeOf(products))
    {
      ghost var start := Staged();
      r := OrderCart(user);
      if r.Ok? {
        CheckoutCharges(start, user);
      }
    }

    /** The loop of checkout. */
    method OrderCart(user: UserId) returns (r: Result<OrderId>)
      modifies this`stock, this`movements, this`orders, this`carts
      ensures r.Ok? <==> CanCheckout(old(Staged()), user)
      ensures r.Ok? ==> Some(Staged()) == CheckoutTx(old(Staged()), user) && r.value == |old(orders)|
    {
      ghost var start := Staged();
      var cart := CartOf(carts, user);
      if cart == [] {
        return Err(Conflict);
      }
      var id := |orders|;
      var subtotal: nat := 0;
      var lines: seq<Line>, prices: seq<nat> := [], [];
      orders := orders + [NewOrder(user)];
      CheckoutStarts(start, user, cart);
      for i := 0 to |cart|
        invariant Staged() == AtLine(start, user, cart, i) && Fits(start, cart, i)
        invariant Priced(start.products, cart, i, lines, prices, subtotal)
      {
        var unitPrice := OrderLine(start, user, cart, i, id);
        if unitPrice.Err? {
          return Err(unitPrice.error);
        }
        NextPrice(start.products, cart, i, lines, prices, subtotal);
        lines, prices := lines + [cart[i]], prices + [unitPrice.value];
        subtotal := subtotal + unitPrice.value * cart[i].quantity;
      }
      r := FinishOrder(start, user, cart, lines, prices, subtotal);
    }

    /** After the loop: fill in the order, move it to `awaiting_payment`, clear the cart. */
    method FinishOrder(ghost start: Shop, user: UserId, cart: seq<Line>, lines: seq<Line>, prices: seq<nat>, subtotal: nat)
      returns (r: Result<OrderId>)
      requires cart == CartOf(start.carts, user) && cart != []
      requires Staged() == AtLine(start, user, cart, |cart|) && Fits(start, cart, |cart|)
      requires Priced(start.products, cart, |cart|, lines, prices, subtotal)
      modifies this`orders, this`carts
      ensures CanCheckout(start, user)
      ensures r == Ok(|start.orders|) && Some(Staged()) == CheckoutTx(start, user)
    {
      CheckoutEnds(start, user, cart);
      var id := |orders| - 1;
      orders := orders[id := orders[id].(lines := lines, unitPrices := prices, total := subtotal)];
      var moved := Transition(id, AwaitingPayment);
      assert orders[id] == PlacedOrder(start.products, user, cart);
      assert orders == start.orders + [PlacedOrder(start.products, user, cart)];
      carts := carts[user := []];
      r := Ok(id);
    }

    method MarkPaid(id: OrderId) returns (r: Result<()>)
      modifies this`stock, this`movements, this`orders
      ensures r.Ok? <==> MarkPaidTx(old(Staged()), id).Some?
      ensures r.Ok? ==> Some(Staged()) == MarkPaidTx(old(Staged()), id)
    {
      if id >= |orders| {
        return Err(NotFound);
      }
      ghost var start := Staged();
      var lines := orders[id].lines;
      NothingMoves(Purchase, stock);
      for i := 0 to |lines|
        invariant stock == MoveLines(Purchase, start.stock, lines[..i])
        invariant movements == start.movements + LineMovements(Purchase, lines[..i], id)
        invariant orders == start.orders && Stocked(start.stock, lines[..i])
      {
        NextMove(Purchase, start.stock, lines, i, id);
        var done := CommitPurchase(lines[i].product, lines[i].quantity, id);
        if done.Err? {
          return done;
        }
      }
      assert lines[..|lines|] == lines;
      r := Transition(id, Paid);
    }

    method MarkPaymentFailed(id: OrderId) returns (r: Result<()>)
      modifies this`stock, this`movements, this`orders
      ensures r.Ok? <==> MarkPaymentFailedTx(old(Staged()), id).Some?
      ensures r.Ok? ==> Some(Staged()) == MarkPaymentFailedTx(old(Staged()), id)
    {
      if id >= |orders| {
        return Err(NotFound);
      }
      r := ReleaseLines(id);
      if r.Ok? {
        r := Transition(id, PaymentFailed);
      }
    }

    /** The release loop shared by failed payments and cancels. */
    method ReleaseLines(id: OrderId) returns (r: Result<()>)
      requires id < |orders|
      modifies this`stock, this`movements
      ensures r == if Stocked(old(stock), orders[id].lines) then Ok(()) else Err(NotFound)
      ensures r.Ok? ==> stock == MoveLines(Release, old(stock), orders[id].lines)
      ensures r.Ok? ==> movements == old(movements) + LineMovements(Release, orders[id].lines, id)
    {
      ghost var start, before := stock, movements;
      var lines := orders[id].lines;
      NothingMoves(Release, stock);
      for i := 0 to |lines|
        invariant stock == MoveLines(Release, start, lines[..i])
        invariant movements == before + LineMovements(Release, lines[..i], id)
        invariant Stocked(start, lines[..i])
      {
        NextMove(Release, start, lines, i, id);
        var done := ReleaseStock(lines[i].product, lines[i].quantity, id);
        if done.Err? {
          return done;
        }
      }
      assert lines[..|lines|] == lines;
      r := Ok(());
    }

    method Cancel(id: OrderId, user: UserId, privileged: bool) returns (r: Result<()>)
      modifies this`stock, this`movements, this`orders
      ensures r.Ok? <==> CancelTx(old(Staged()), id, user, privileged).Some?
      ensures r.Ok? ==> Some(Staged()) == CancelTx(old(Staged()), id, user, privileged)
      ensures r == Err(PermissionDenied) <==> id < |old(orders)| && old(orders)[id].user != user && !privileged
    {
      if id >= |orders| {
        return Err(NotFound);
      }
      if orders[id].user != user && !privileged {
        return Err(PermissionDenied);
      }
      if orders[id].status in {Pending, AwaitingPayment, Paid} {
        r := ReleaseLines(id);
        if r.Err? {
          return;
        }
      }
      r := Transition(id, Cancelled);
    }

    method AdminUpdateStatus(id: OrderId, to: OrderStatus) returns (r: Result<()>)
      modifies this`orders
      ensures r.Ok? <==> AdminMoveTx(old(Staged()), id, to).Some?
      ensures r.Ok? ==> Some(Staged()) == AdminMoveTx(old(Staged()), id, to)
      ensures r.Err? ==> orders == old(orders) && r.error == if id < |orders| then Conflict else NotFound
      ensures r.Ok? <==> id < |old(orders)| && (old(orders)[id].status, to) in MOVES
      ensures r.Ok? ==> orders[id].status == to && forall k :: 0 <= k < |orders| && k != id ==> orders[k] == old(orders)[k]
    {
      if id >= |orders| {
        return Err(NotFound);
      }
      r := Transition(id, to);
    }

    // ---- WalletService ---------------------------------------------------------------------

    method GetOrCreateWallet(user: UserId)
      modifies this`wallets
      ensures wallets == old(wallets)[user := WalletOf(old(wallets), user)]
    {
      if user !in wallets {
        wallets := wallets[user := NEW_WALLET];
      }
      assert user in old(wallets) ==> wallets == old(wallets)[user := old(wallets)[user]];
    }

    /** One balance change under the lock on the wallet row: the balance and its ledger entry together. */
    method ApplyToWallet(user: UserId, kind: EntryKind, amount: nat, order: Option<OrderId>) returns (r: Result<Entry>)
      modifies this`wallets
      ensures r.Ok? <==> PostTx(old(Staged()), user, kind, amount, order).Some?
      ensures r.Ok? ==> Some(Staged()) == PostTx(old(Staged()), user, kind, amount, order)
      ensures r.Ok? ==> r.value == Entry(kind, amount, wallets[user].balance, order)
      ensures kind in {Deposit, Refund, AdminCredit} ==>
        var w := WalletOf(old(wallets), user);
        && (r.Ok? <==> 0 <= w.balance + amount)
        && (r.Ok? ==> wallets == old(wallets)[user := Wallet(w.balance + amount, w.ledger + [r.value])])
      ensures kind in {PurchaseDebit, AdminDebit} ==>
        var w := WalletOf(old(wallets), user);
        && (r.Ok? <==> amount <= w.balance)
        && (r.Ok? ==> wallets == old(wallets)[user := Wallet(w.balance - amount, w.ledger + [r.value])])
      ensures r.Err? ==> r.error == Conflict
    {
      GetOrCreateWallet(user);
      var wallet := wallets[user];
      var signed := if IsCredit(kind) then amount as int else -(amount as int);
      var newBalance := wallet.balance + signed;
      if newBalance < 0 {
        return Err(Conflict);
      }
      wallet := wallet.(balance := newBalance);
      var entry := Entry(kind, amount, newBalance, order);
      wallet := wallet.(ledger := wallet.ledger + [entry]);
      wallets := wallets[user := wallet];
      assert wallets == old(wallets)[user := wallet];
      r := Ok(entry);
    }

    // ---- PaymentService --------------------------------------------------------------------

    method StartPayment(user: UserId, id: OrderId, gateway: Gateway) returns (r: Result<nat>)
      modifies this`payments
      ensures r.Ok? <==> InitPaymentTx(old(Staged()), user, id, gateway).Some?
      ensures r.Ok? ==> Some(Staged()) == InitPaymentTx(old(Staged()), user, id, gateway)
      ensures r.Ok? ==> r.value == |old(payments)|
      ensures r.Err? ==> payments == old(payments)
      ensures r == Err(NotFound) <==> id >= |orders|
      ensures r == Err(PermissionDenied) <==> id < |orders| && orders[id].user != user
      ensures r == Err(GatewayFailure) ==> gateway.Unreachable?
      ensures r == Err(Conflict) <==>
        && id < |orders| && orders[id].user == user
        && (orders[id].status !in {AwaitingPayment, PaymentFailed} || gateway.NotConfigured?)
    {
      if id >= |orders| {
        return Err(NotFound);
      }
      if orders[id].user != user {
        return Err(PermissionDenied);
      }
      if orders[id].status !in {AwaitingPayment, PaymentFailed} {
        return Err(Conflict);
      }
      if gateway.NotConfigured? {
        return Err(Conflict);
      }
      if gateway.Unreachable? {
        return Err(GatewayFailure);
      }
      if FindPayment(payments, gateway.authority).Some? {
        return Err(IntegrityViolation);
      }
      payments := payments + [Payment(id, user, orders[id].total, Initiated, gateway.authority)];
      r := Ok(|payments| - 1);
    }

    /** The conditional update; true iff this call changed the row. */
    method TryClaim(i: nat, from: PaymentStatus, to: PaymentStatus) returns (claimed: bool)
      requires i < |payments|
      modifies this`payments
      ensures claimed <==> old(payments)[i].status == from
      ensures payments == if claimed then old(payments)[i := old(payments)[i].(status := to)] else old(payments)
    {
      claimed := payments[i].status == from;
      if claimed {
        payments := payments[i := payments[i].(status := to)];
      }
    }

    method HandleCallback(a: Authority, gatewayOk: bool, v: Verification) returns (r: Result<PaymentStatus>)
      modifies this`stock, this`movements, this`orders, this`payments
      ensures r.Ok? <==> CallbackTx(old(Staged()), a, gatewayOk, v).Some?
      ensures r.Ok? ==> Some(Staged()) == CallbackTx(old(Staged()), a, gatewayOk, v)
      ensures r.Ok? ==> FindPayment(old(payments), a).Some? && r.value == payments[FindPayment(old(payments), a).value].status
      ensures r == Err(NotFound) || FindPayment(old(payments), a).Some?
      ensures FindPayment(old(payments), a).Some? ==>
        var p := old(payments)[FindPayment(old(payments), a).value];
        && (p.status != Initiated ==> r == Ok(p.status) && Staged() == old(Staged()))
        && (p.status == Initiated && gatewayOk && v.Unavailable? ==> r == Err(GatewayFailure))
        && (p.status == Initiated && r.Ok? ==> r == Ok(if gatewayOk && v.Accepted? then Verified else Failed))
    {
      var found := FindPayment(payments, a);
      if found.None? {
        return Err(NotFound);
      }
      var i := found.value;
      var claimed := TryClaim(i, Initiated, Claimed);
      if !claimed {
        return Ok(payments[i].status);
      }
      var settled: Result<()>;
      if !gatewayOk {
        payments := payments[i := payments[i].(status := Failed)];
        settled := MarkPaymentFailed(payments[i].order);
      } else if v.Unavailable? {
        return Err(GatewayFailure);
      } else if v.Accepted? {
        payments := payments[i := payments[i].(status := Verified)];
        settled := MarkPaid(payments[i].order);
      } else {
        payments := payments[i := payments[i].(status := Failed)];
        settled := MarkPaymentFailed(payments[i].order);
      }
      assert payments == old(payments)[i := old(payments)[i].(status := payments[i].status)];
      r := if settled.Ok? then Ok(payments[i].status) else Err(settled.error);
    }

    // ---- Routes: one transaction each ------------------------------------------------------

    /** Installs a finished body, or drops it. */
    method Finish(ok: bool, ghost next: Option<Shop>)
      requires WellFormed(committed)
      requires ok <==> next.Some?
      requires ok ==> Staged() == next.value && WellFormed(next.value)
      modifies this
      ensures committed == if next.Some? then next.value else old(committed)
      ensures Clean()
    {
      if ok {
        var flushed := Commit();
      } else {
        Rollback();
      }
    }

    method CheckoutRoute(user: UserId)
      requires Clean()
      modifies this
      ensures Clean() && committed == Step(old(committed), Checkout(user))
    {
      ghost var next := Transaction(committed, Checkout(user));
      StepKeepsWellFormed(committed, Checkout(user));
      var r := PlaceOrder(user);
      Finish(r.Ok?, next);
    }

    method InitPaymentRoute(user: UserId, id: OrderId, gateway: Gateway)
      requires Clean()
      modifies this
      ensures Clean() && committed == Step(old(committed), InitPayment(user, id, gateway))
    {
      ghost var next := Transaction(committed, InitPayment(user, id, gateway));
      StepKeepsWellFormed(committed, InitPayment(user, id, gateway));
      var r := StartPayment(user, id, gateway);
      Finish(r.Ok?, next);
    }

    method CallbackRoute(a: Authority, gatewayOk: bool, v: Verification)
      requires Clean()
      modifies this
      ensures Clean() && committed == Step(old(committed), Callback(a, gatewayOk, v))
    {
      ghost var next := Transaction(committed, Callback(a, gatewayOk, v));
      StepKeepsWellFormed(committed, Callback(a, gatewayOk, v));
      var r := HandleCallback(a, gatewayOk, v);
      Finish(r.Ok?, next);
    }

    method CancelRoute(id: OrderId, user: UserId, privileged: bool)
      requires Clean()
      modifies this
      ensures Clean() && committed == Step(old(committed), CancelOrder(id, user, privileged))
    {
      ghost var next := Transaction(committed, CancelOrder(id, user, privileged));
      StepKeepsWellFormed(committed, CancelOrder(id, user, privileged));
      var r := Cancel(id, user, privileged);
      Finish(r.Ok?, next);
    }

    /** The status move and the refund it triggers commit together or not at all. */
    method UpdateStatusRoute(id: OrderId, to: OrderStatus)
      requires Clean()
      modifies this
      ensures Clean() && committed == Step(old(committed), UpdateStatus(id, to))
    {
      ghost var next := Transaction(committed, UpdateStatus(id, to));
      StepKeepsWellFormed(committed, UpdateStatus(id, to));
      var r := AdminUpdateStatus(id, to);
      var ok := r.Ok?;
      if ok && orders[id].status == Refunded {
        var refund := ApplyToWallet(orders[id].user, Refund, orders[id].total, Some(id));
        ok := refund.Ok?;
      }
      Finish(ok, next);
    }

    method RestockRoute(p: ProductId, delta: int)
      requires Clean()
      modifies this
      ensures Clean() && committed == Step(old(committed), RestockProduct(p, delta))
    {
      StepKeepsWellFormed(committed, RestockProduct(p, delta));
      var r := RestockRow(p, delta);
      if r.Ok? {
        assert (forall q :: q in stock ==> stock[q].ChecksHold()) <==> stock[p].ChecksHold() by {
          assert forall q :: q in stock && q != p ==> stock[q] == committed.stock[q];
        }
        var flushed := Commit();
      } else {
        Rollback();
      }
    }

    method AdjustRoute(p: ProductId, delta: int)
      requires Clean()
      modifies this
      ensures Clean() && committed == Step(old(committed), AdjustProduct(p, delta))
    {
      StepKeepsWellFormed(committed, AdjustProduct(p, delta));
      var r := AdjustRow(p, delta);
      if r.Ok? {
        assert (forall q :: q in stock ==> stock[q].ChecksHold()) <==> stock[p].ChecksHold() by {
          assert forall q :: q in stock && q != p ==> stock[q] == committed.stock[q];
        }
        var flushed := Commit();
      } else {
        Rollback();
      }
    }

    method DepositRoute(user: UserId, amount: nat)
      requires Clean() && 0 < amount
      modifies this
      ensures Clean() && committed == Step(old(committed), DepositMoney(user, amount))
    {
      ghost var next := Transaction(committed, DepositMoney(user, amount));
      StepKeepsWellFormed(committed, DepositMoney(user, amount));
      var r := ApplyToWallet(user, Deposit, amount, None);
      Finish(r.Ok?, next);
    }
  }
}
