/**
 * Concrete runs from an empty shop: the two loose routes leave open orders without stock, a second payment
 * is undone, and an order is refunded that nobody paid.
 */
module StockBreaks {
  import opened Prelude
  import opened Sums
  import opened OrderGraph
  import opened Shop
  import opened StockLaws
  import opened Ledger
  import opened MoneyLaws
  import opened PaidLaws

  lemma RunSnoc(s: Shop, events: seq<Event>, e: Event)
    ensures Run(s, events + [e]) == Step(Run(s, events), e)
  {
    assert (events + [e])[..|events|] == events;
  }

  /** Everything about an order with a single line. */
  lemma LoneLine(kind: MovementKind, stock: map<ProductId, Stock>, l: Line, price: nat, id: OrderId)
    requires l.product in stock
    ensures forall p :: Qty([l], p) == if p == l.product then l.quantity else 0
    ensures forall p :: Listed([l], p) <==> p == l.product
    ensures MoveLines(kind, stock, [l]) == stock[l.product := MoveRow(kind, stock[l.product], l.quantity)]
    ensures LineMovements(kind, [l], id) == [Movement(l.product, kind, l.quantity, Some(id))]
    ensures LinesTotal([l], [price]) == price * l.quantity
  {
    forall p ensures Qty([l], p) == if p == l.product then l.quantity else 0 {
      SumSnoc([], l, QuantityOf(p));
      assert [] + [l] == [l];
    }
    assert [l][0] == l;
  }

  /** The tables after checking out a cart with a single line. */
  ghost function AfterLoneCheckout(s: Shop, user: UserId, l: Line): Shop
    requires OnSale(s.products, l.product) && l.product in s.stock
  {
    var price, row := UnitPrice(s.products[l.product]), s.stock[l.product];
    s.(stock := s.stock[l.product := row.(reserved := row.reserved + l.quantity)],
       movements := s.movements + [Movement(l.product, Reserve, l.quantity, Some(|s.orders|))],
       orders := s.orders + [Order(user, AwaitingPayment, [l], [price], price * l.quantity,
                                   [HistoryEntry(Pending, AwaitingPayment)], false)],
       carts := s.carts[user := []])
  }

  lemma LoneCheckout(s: Shop, user: UserId, l: Line, t: Shop)
    requires CartOf(s.carts, user) == [l] && OnSale(s.products, l.product)
    requires l.product in s.stock && l.quantity <= s.stock[l.product].Available()
    requires t == AfterLoneCheckout(s, user, l)
    ensures Step(s, Checkout(user)) == t
  {
    var price := UnitPrice(s.products[l.product]);
    LoneLine(Reserve, s.stock, l, price, |s.orders|);
    assert CanCheckout(s, user);
    assert CurrentPrices(s.products, [l]) == [price];
  }

  // One product, ten units. Customer 1 orders four and starts to pay.

  const PHONE := Product(10, None, true)
  const FOUR := [Line(1, 4)]
  const FIRST_ORDER := Order(1, AwaitingPayment, FOUR, [10], 40, [HistoryEntry(Pending, AwaitingPayment)], false)
  const STOCKED := EMPTY_SHOP.(products := map[1 := PHONE], stock := map[1 := Stock(10, 0)])
  const FILLED := STOCKED.(carts := map[1 := FOUR])
  const ORDERED := STOCKED.(
    stock := map[1 := Stock(10, 4)], movements := [Movement(1, Reserve, 4, Some(0))],
    carts := map[1 := []], orders := [FIRST_ORDER])
  const PAYING := ORDERED.(payments := [Payment(0, 1, 40, Initiated, 7)])

  const ORDERING: seq<Event> := [] + [CreateProduct(1, PHONE, 10)] + [AddItem(1, 1, 4)] + [Checkout(1)]
  const OPENING: seq<Event> := ORDERING + [InitPayment(1, 0, Handed(7))]

  lemma FirstCheckout()
    ensures Step(FILLED, Checkout(1)) == ORDERED
  {
    LoneCheckout(FILLED, 1, Line(1, 4), ORDERED);
  }

  lemma CartFilled()
    ensures Step(EMPTY_SHOP, CreateProduct(1, PHONE, 10)) == STOCKED
    ensures Step(STOCKED, AddItem(1, 1, 4)) == FILLED
  {
    assert CartOf(STOCKED.carts, 1) == [] && AvailableStock(STOCKED.stock, 1) == 10;
    assert FindLine([], 1).None?;
    assert PutLine([], Line(1, 4)) == FOUR;
    assert AddItemTx(STOCKED, 1, 1, 4) == Some(FILLED);
  }

  lemma PaymentStarted()
    ensures Step(ORDERED, InitPayment(1, 0, Handed(7))) == PAYING
  {
  }

  lemma Ordering()
    ensures Run(EMPTY_SHOP, ORDERING) == ORDERED
  {
    var e0, e1, e2 := CreateProduct(1, PHONE, 10), AddItem(1, 1, 4), Checkout(1);
    RunSnoc(EMPTY_SHOP, [], e0);
    RunSnoc(EMPTY_SHOP, [] + [e0], e1);
    RunSnoc(EMPTY_SHOP, [] + [e0] + [e1], e2);
    assert Run(EMPTY_SHOP, []) == EMPTY_SHOP;
    CartFilled();
    FirstCheckout();
  }

  lemma Opening()
    ensures Run(EMPTY_SHOP, OPENING) == PAYING
  {
    RunSnoc(EMPTY_SHOP, ORDERING, InitPayment(1, 0, Handed(7)));
    Ordering();
    PaymentStarted();
  }

  // The payment succeeds, customer 2 orders three, and customer 1 cancels the paid order.

  const THREE := [Line(1, 3)]
  const PAID := PAYING.(
    stock := map[1 := Stock(6, 0)],
    movements := PAYING.movements + [Movement(1, Purchase, 4, Some(0))],
    orders := [MovedOrder(FIRST_ORDER, Paid)],
    payments := [Payment(0, 1, 40, Verified, 7)])
  const REFILLED := PAID.(carts := map[1 := [], 2 := THREE])
  const SECOND_ORDER := Order(2, AwaitingPayment, THREE, [10], 30, [HistoryEntry(Pending, AwaitingPayment)], false)
  const REORDERED := PAID.(
    stock := map[1 := Stock(6, 3)],
    movements := PAID.movements + [Movement(1, Reserve, 3, Some(1))],
    carts := map[1 := [], 2 := []],
    orders := [MovedOrder(FIRST_ORDER, Paid), SECOND_ORDER])

  lemma PaymentAccepted()
    ensures Step(PAYING, Callback(7, true, Accepted)) == PAID
  {
    LoneLine(Purchase, PAYING.stock, Line(1, 4), 10, 0);
    assert FindPayment(PAYING.payments, 7) == Some(0);
  }

  lemma SecondCheckout()
    ensures Step(REFILLED, Checkout(2)) == REORDERED
  {
    LoneCheckout(REFILLED, 2, Line(1, 3), REORDERED);
  }

  /**
   * Cancelling a paid order releases units it no longer holds: the three units that customer 2 has
   * reserved and not yet paid for disappear from the books.
   */
  lemma LateCancelUncoversOpenOrder()
    ensures var t := Run(EMPTY_SHOP, OPENING + [Callback(7, true, Accepted)] + [AddItem(2, 1, 3)] + [Checkout(2)]
                                       + [CancelOrder(0, 1, false)]);
            1 in t.stock && t.stock[1] == Stock(6, 0) && Slack(t, 1) == -3
  {
    var e4, e5, e6, e7 := Callback(7, true, Accepted), AddItem(2, 1, 3), Checkout(2), CancelOrder(0, 1, false);
    RunSnoc(EMPTY_SHOP, OPENING, e4);
    RunSnoc(EMPTY_SHOP, OPENING + [e4], e5);
    RunSnoc(EMPTY_SHOP, OPENING + [e4] + [e5], e6);
    RunSnoc(EMPTY_SHOP, OPENING + [e4] + [e5] + [e6], e7);
    Opening();
    PaymentAccepted();
    assert Step(PAID, e5) == REFILLED;
    SecondCheckout();
    LateCancel();
  }

  lemma LateCancel()
    ensures var t := Step(REORDERED, CancelOrder(0, 1, false));
            1 in t.stock && t.stock[1] == Stock(6, 0) && Slack(t, 1) == -3
  {
    var t := Step(REORDERED, CancelOrder(0, 1, false));
    LoneLine(Release, REORDERED.stock, Line(1, 4), 10, 0);
    LoneLine(Release, REORDERED.stock, Line(1, 3), 10, 1);
    var cancelled := MovedOrder(MovedOrder(FIRST_ORDER, Paid), Cancelled);
    assert t.orders == [] + [cancelled] + [SECOND_ORDER];
    SumSnoc([], cancelled, OpenQuantity(1));
    SumSnoc([] + [cancelled], SECOND_ORDER, OpenQuantity(1));
  }

  // The payment fails instead, and an admin reopens the order.

  const FAILED := PAYING.(
    stock := map[1 := Stock(10, 0)],
    movements := PAYING.movements + [Movement(1, Release, 4, Some(0))],
    orders := [MovedOrder(FIRST_ORDER, PaymentFailed)],
    payments := [Payment(0, 1, 40, Failed, 7)])

  lemma PaymentRejected()
    ensures Step(PAYING, Callback(7, false, Rejected)) == FAILED
  {
    LoneLine(Release, PAYING.stock, Line(1, 4), 10, 0);
    assert FindPayment(PAYING.payments, 7) == Some(0);
  }

  /** Reopening a failed order for payment reserves nothing for it. */
  lemma ReopenedOrderIsUncovered()
    ensures var t := Run(EMPTY_SHOP, OPENING + [Callback(7, false, Rejected)] + [UpdateStatus(0, AwaitingPayment)]);
            1 in t.stock && t.stock[1] == Stock(10, 0) && Slack(t, 1) == -4
  {
    var e4, e5 := Callback(7, false, Rejected), UpdateStatus(0, AwaitingPayment);
    RunSnoc(EMPTY_SHOP, OPENING, e4);
    RunSnoc(EMPTY_SHOP, OPENING + [e4], e5);
    Opening();
    PaymentRejected();
    Reopening();
  }

  const REOPENED_ORDER := MovedOrder(MovedOrder(FIRST_ORDER, PaymentFailed), AwaitingPayment)

  lemma Reopening()
    ensures Step(FAILED, UpdateStatus(0, AwaitingPayment)) == FAILED.(orders := [REOPENED_ORDER])
    ensures Slack(FAILED.(orders := [REOPENED_ORDER]), 1) == -4
  {
    LoneLine(Release, PAYING.stock, Line(1, 4), 10, 0);
    SumSnoc([], REOPENED_ORDER, OpenQuantity(1));
    assert [] + [REOPENED_ORDER] == [REOPENED_ORDER];
  }

  // The customer pays again for the failed order, and the gateway takes the money.

  const PAYING_AGAIN := FAILED.(payments := [Payment(0, 1, 40, Failed, 7), Payment(0, 1, 40, Initiated, 8)])

  lemma FailedIsReached()
    ensures Run(EMPTY_SHOP, OPENING + [Callback(7, false, Rejected)]) == FAILED && WellFormed(FAILED)
  {
    RunSnoc(EMPTY_SHOP, OPENING, Callback(7, false, Rejected));
    Opening();
    PaymentRejected();
    EmptyShopWellFormed();
    RunKeepsWellFormed(EMPTY_SHOP, OPENING + [Callback(7, false, Rejected)]);
  }

  lemma SecondAttempt(ok: bool, v: Verification)
    requires WellFormed(FAILED)
    ensures Step(FAILED, InitPayment(1, 0, Handed(8))) == PAYING_AGAIN
    ensures Step(PAYING_AGAIN, Callback(8, ok, v)) == PAYING_AGAIN
  {
    assert FindPayment(FAILED.payments, 8).None?;
    PayingAgainIsUndone(FAILED, 0, 8, ok, v);
    assert FAILED.payments + [Payment(0, 1, 40, Initiated, 8)] == PAYING_AGAIN.payments;
  }

  /** Even an accepted second payment leaves the order failed and its own attempt initiated. */
  lemma SecondPaymentIsUndone(ok: bool, v: Verification)
    ensures var t := Run(EMPTY_SHOP, OPENING + [Callback(7, false, Rejected)] + [InitPayment(1, 0, Handed(8))]
                                       + [Callback(8, ok, v)]);
            && |t.orders| == 1 && t.orders[0].status == PaymentFailed
            && |t.payments| == 2 && t.payments[1] == Payment(0, 1, 40, Initiated, 8)
  {
    var e4, e5, e6 := Callback(7, false, Rejected), InitPayment(1, 0, Handed(8)), Callback(8, ok, v);
    FailedIsReached();
    SecondAttempt(ok, v);
    RunSnoc(EMPTY_SHOP, OPENING + [e4], e5);
    RunSnoc(EMPTY_SHOP, OPENING + [e4] + [e5], e6);
  }

  // An admin marks the order as paid, and refunds it.

  const MARKED_ORDER := MovedOrder(FIRST_ORDER, Paid)
  const MARKED := ORDERED.(orders := [MARKED_ORDER])
  const REFUNDED := MARKED.(
    orders := [MovedOrder(MARKED_ORDER, Refunded)],
    wallets := map[1 := Wallet(40, [Entry(Refund, 40, 40, Some(0))])])

  lemma MarkedAndRefunded()
    ensures AdminPays(ORDERED, UpdateStatus(0, Paid), 0)
    ensures Step(ORDERED, UpdateStatus(0, Paid)) == MARKED
    ensures Step(MARKED, UpdateStatus(0, Refunded)) == REFUNDED
  {
    assert ORDERED.orders[0 := MARKED_ORDER] == [MARKED_ORDER];
    assert MARKED.orders[0 := MovedOrder(MARKED_ORDER, Refunded)] == REFUNDED.orders;
    assert [] + [Entry(Refund, 40, 40, Some(0))] == REFUNDED.wallets[1].ledger;
    assert Posted(NEW_WALLET, Refund, 40, Some(0)) == Some(REFUNDED.wallets[1]);
    assert MARKED.wallets[1 := REFUNDED.wallets[1]] == REFUNDED.wallets;
  }

  /** The order is refunded and forty are in the wallet, though nobody ever started a payment. */
  lemma RefundWithoutPayment()
    ensures var events := ORDERING + [UpdateStatus(0, Paid)] + [UpdateStatus(0, Refunded)];
            var t := Run(EMPTY_SHOP, events);
            && t.payments == [] && PaidByAdmin(events, 0)
            && |t.orders| == 1 && t.orders[0].status == Refunded && WalletOf(t.wallets, 1).balance == 40
  {
    var e1, e2 := UpdateStatus(0, Paid), UpdateStatus(0, Refunded);
    Ordering();
    MarkedAndRefunded();
    RunSnoc(EMPTY_SHOP, ORDERING, e1);
    RunSnoc(EMPTY_SHOP, ORDERING + [e1], e2);
    assert (ORDERING + [e1])[..|ORDERING|] == ORDERING;
    assert (ORDERING + [e1] + [e2])[..|ORDERING| + 1] == ORDERING + [e1];
  }
}
