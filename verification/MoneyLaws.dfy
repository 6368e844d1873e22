/**
 * Orders, payments, refunds and wallets over every run of the shop, admin moves and cancels included:
 * order histories, one verified payment per order, callback replay, refund exactly once.
 */
module MoneyLaws {
  import opened Prelude
  import opened Sums
  import opened OrderGraph
  import opened Shop
  import opened StockMoves
  import opened StockLaws

  // ---- Orders ------------------------------------------------------------------------------

  /** An order row after one request: as it was, or one allowed move further. */
  predicate OrderAdvances(o: Order, o': Order) {
    o' == o || (Allowed(o.status, o'.status) && o' == MovedOrder(o, o'.status))
  }

  /** The order table after one request: rows advance, and checkout may add one. */
  ghost predicate OrdersAdvance(orders: seq<Order>, orders': seq<Order>) {
    && |orders| <= |orders'|
    && forall i :: 0 <= i < |orders| ==> OrderAdvances(orders[i], orders'[i])
  }

  lemma MoveOrderAdvances(s: Shop, id: OrderId, to: OrderStatus, kind: MovementKind)
    ensures MoveOrderTx(s, id, to, kind).Some? ==>
              var t := MoveOrderTx(s, id, to, kind).value;
              OrdersAdvance(s.orders, t.orders) && |t.orders| == |s.orders|
  {
  }

  lemma AdminMoveAdvances(s: Shop, id: OrderId, to: OrderStatus)
    ensures AdminMoveTx(s, id, to).Some? ==>
              var t := AdminMoveTx(s, id, to).value;
              OrdersAdvance(s.orders, t.orders) && |t.orders| == |s.orders|
  {
  }

  lemma CallbackAdvances(s: Shop, a: Authority, ok: bool, v: Verification)
    ensures CallbackTx(s, a, ok, v).Some? ==>
              var t := CallbackTx(s, a, ok, v).value;
              OrdersAdvance(s.orders, t.orders) && |t.orders| == |s.orders|
  {
    var found := FindPayment(s.payments, a);
    if found.Some? {
      var p := s.payments[found.value];
      MoveOrderAdvances(s.(payments := s.payments[found.value := p.(status := Verified)]), p.order, Paid, Purchase);
      MoveOrderAdvances(s.(payments := s.payments[found.value := p.(status := Failed)]), p.order, PaymentFailed, Release);
    }
  }

  lemma QuietOrders(s: Shop, e: Event)
    requires !TouchesOrders(e)
    ensures Step(s, e).orders == s.orders
  {
  }

  lemma OrdersEvolve(s: Shop, e: Event)
    ensures var t := Step(s, e);
            && OrdersAdvance(s.orders, t.orders)
            && (t.orders != s.orders ==> TouchesOrders(e))
            && (|t.orders| != |s.orders| ==>
                  e.Checkout? && t.orders == s.orders + [PlacedOrder(s.products, e.user, CartOf(s.carts, e.user))])
  {
    match e
    case Checkout(u) =>
    case Callback(a, ok, v) => CallbackAdvances(s, a, ok, v);
    case CancelOrder(id, u, priv) =>
      MoveOrderAdvances(s, id, Cancelled, Release);
      AdminMoveAdvances(s, id, Cancelled);
    case UpdateStatus(id, to) => AdminMoveAdvances(s, id, to);
    case _ => QuietOrders(s, e);
  }

  /** What checkout wrote into an order never changes; its history only grows. */
  predicate SameSale(o: Order, o': Order) {
    && o'.user == o.user && o'.lines == o.lines && o'.unitPrices == o.unitPrices && o'.total == o.total
    && o.history <= o'.history
  }

  lemma {:induction false} OrdersAreSnapshots(s: Shop, events: seq<Event>, id: OrderId)
    requires id < |s.orders|
    ensures id < |Run(s, events).orders| && SameSale(s.orders[id], Run(s, events).orders[id])
    decreases |events|
  {
    if events != [] {
      var init := events[..|events| - 1];
      OrdersAreSnapshots(s, init, id);
      OrdersEvolve(Run(s, init), events[|events| - 1]);
      var o := Run(s, init).orders[id];
      assert OrderAdvances(o, Run(s, events).orders[id]);
    }
  }

  /** The shape of every order history that a run can leave behind. */
  lemma OrderHistoriesArePaths(s: Shop, events: seq<Event>, id: OrderId)
    requires WellFormed(s) && id < |Run(s, events).orders|
    ensures var o := Run(s, events).orders[id];
            && o.status != Pending
            && Chain(o.history, Pending, o.status)
            && Entries(o.history, Paid) <= 1
            && (OnlyIfPaid(o.status) ==> Entries(o.history, Paid) == 1)
            && ProgressMoves(o.history) + Rank(o.status) <= 6
            && (forall i, j :: 0 <= i < j < |o.history| && o.history[i].to == Paid ==>
                  o.history[j].to !in {AwaitingPayment, PaymentFailed, Paid})
            && (forall i :: 0 <= i < |o.history| - 1 ==> o.history[i].to !in {Cancelled, Refunded})
            && (o.cancelStamped <==> o.status == Cancelled)
            && (forall i :: 0 < i < |o.history| && o.history[i].to == Processing ==> o.history[i - 1].to == Paid)
            && (forall i :: 0 < i < |o.history| && o.history[i].to == Shipped ==> o.history[i - 1].to == Processing)
            && (forall i :: 0 < i < |o.history| && o.history[i].to == Completed ==> o.history[i - 1].to == Shipped)
            && (forall i :: 0 < i < |o.history| && o.history[i].to == Refunded ==>
                  o.history[i - 1].to == Paid || o.history[i - 1].to == Completed)
            && o.history[0].to in {AwaitingPayment, Cancelled}
  {
    RunKeepsWellFormed(s, events);
    var o := Run(s, events).orders[id];
    assert OrderOk(o, Run(s, events).stock);
    PaidOnce(o.history, o.status);
    ProgressIsBounded(o.history, Pending, o.status);
    forall i, j | 0 <= i < j < |o.history| && o.history[i].to == Paid
      ensures o.history[j].to !in {AwaitingPayment, PaymentFailed, Paid}
    {
      NoPaymentAfterPaid(o.history, o.status, i, j);
    }
    forall i | 0 < i < |o.history|
      ensures o.history[i].to == Processing ==> o.history[i - 1].to == Paid
      ensures o.history[i].to == Shipped ==> o.history[i - 1].to == Processing
      ensures o.history[i].to == Completed ==> o.history[i - 1].to == Shipped
      ensures o.history[i].to == Refunded ==> o.history[i - 1].to == Paid || o.history[i - 1].to == Completed
    {
      FulfilmentInOrder(o.history, o.status, i);
    }
    FirstMove(o.history, o.status);
    forall i | 0 <= i < |o.history| - 1 ensures o.history[i].to !in {Cancelled, Refunded} {
      if o.history[i].to in {Cancelled, Refunded} {
        TerminalEndsHistory(o.history, Pending, o.status, i);
      }
    }
  }

  // ---- Payments ----------------------------------------------------------------------------

  ghost predicate PaymentOk(p: Payment, orders: seq<Order>) {
    && p.order < |orders|
    && p.status != Claimed
    && p.amount == orders[p.order].total
    && p.user == orders[p.order].user
    && (p.status == Verified ==> HistoryEntry(AwaitingPayment, Paid) in orders[p.order].history)
  }

  ghost predicate PaymentsOk(s: Shop) {
    && (forall i :: 0 <= i < |s.payments| ==> PaymentOk(s.payments[i], s.orders))
    && (forall i, j :: 0 <= i < j < |s.payments| ==> s.payments[i].authority != s.payments[j].authority)
    && (forall i, j :: 0 <= i < j < |s.payments| && s.payments[i].status == Verified && s.payments[j].status == Verified
          ==> s.payments[i].order != s.payments[j].order)
  }

  lemma OpenOrderIsUnpaid(o: Order, stock: map<ProductId, Stock>)
    requires OrderOk(o, stock) && o.status == AwaitingPayment
    ensures HistoryEntry(AwaitingPayment, Paid) !in o.history
  {
    PaidOnce(o.history, o.status);
    EntriesCountsSteps(o.history, Paid);
    assert forall i :: 0 <= i < |o.history| ==> o.history[i].to != Paid;
  }

  lemma PaymentStaysOk(p: Payment, s: Shop, e: Event)
    requires PaymentOk(p, s.orders)
    ensures PaymentOk(p, Step(s, e).orders)
  {
    OrdersEvolve(s, e);
    assert OrderAdvances(s.orders[p.order], Step(s, e).orders[p.order]);
  }

  /** What a request can do to the payments: nothing, add a fresh one, or settle an initiated one. */
  lemma PaymentsEvolve(s: Shop, e: Event)
    ensures var t := Step(s, e);
            || t.payments == s.payments
            || (e.InitPayment? && |t.payments| == |s.payments| + 1 && t.payments[..|s.payments|] == s.payments
                && t.orders == s.orders && InitPaymentTx(s, e.user, e.order, e.gateway) == Some(t))
            || (e.Callback? && FindPayment(s.payments, e.authority).Some? && SettledAt(s, t, FindPayment(s.payments, e.authority).value))
  {
    if e.Callback? {
      if Transaction(s, e).Some? {
        CallbackSettles(s, e.authority, e.gatewayOk, e.verification);
      }
    } else if !e.InitPayment? {
      QuietPayments(s, e);
    }
  }

  lemma QuietPayments(s: Shop, e: Event)
    requires !e.Callback? && !e.InitPayment?
    ensures Step(s, e).payments == s.payments
  {
    match e
    case CancelOrder(id, u, priv) => assert CancelTx(s, id, u, priv).Some? ==> CancelTx(s, id, u, priv).value.payments == s.payments;
    case UpdateStatus(id, to) => assert UpdateStatusTx(s, id, to).Some? ==> UpdateStatusTx(s, id, to).value.payments == s.payments;
    case _ =>
  }

  lemma CallbackSettles(s: Shop, a: Authority, ok: bool, v: Verification)
    requires CallbackTx(s, a, ok, v).Some?
    ensures var t, i := CallbackTx(s, a, ok, v).value, FindPayment(s.payments, a).value;
            t == s
            || (SettledAt(s, t, i) && (t.payments[i].status == Verified <==> ok && v.Accepted?)
                && var id := s.payments[i].order;
                   t.movements == s.movements
                     + LineMovements(if t.payments[i].status == Verified then Purchase else Release, s.orders[id].lines, id))
  {
  }

  predicate SettledAt(s: Shop, t: Shop, i: nat) {
    && i < |s.payments| && |t.payments| == |s.payments|
    && s.payments[i].status == Initiated
    && t.payments[i].status in {Verified, Failed}
    && t.payments == s.payments[i := s.payments[i].(status := t.payments[i].status)]
    && var id := s.payments[i].order;
       && id < |s.orders| && s.orders[id].status == AwaitingPayment
       && t.orders == s.orders[id := MovedOrder(s.orders[id], if t.payments[i].status == Verified then Paid else PaymentFailed)]
  }

  lemma SettlingKeepsPayments(s: Shop, e: Event, i: nat)
    requires WellFormed(s) && PaymentsOk(s) && SettledAt(s, Step(s, e), i)
    ensures PaymentsOk(Step(s, e))
  {
    var t := Step(s, e);
    var p := s.payments[i];
    forall j | 0 <= j < |t.payments| ensures PaymentOk(t.payments[j], t.orders) {
      PaymentStaysOk(s.payments[j], s, e);
      if j == i && t.payments[i].status == Verified {
        var h := t.orders[p.order].history;
        assert h[|h| - 1] == HistoryEntry(AwaitingPayment, Paid);
      }
    }
    OpenOrderIsUnpaid(s.orders[p.order], s.stock);
    forall j | 0 <= j < |s.payments| && s.payments[j].status == Verified ensures s.payments[j].order != p.order {
      assert PaymentOk(s.payments[j], s.orders);
    }
  }

  lemma InitKeepsPayments(s: Shop, e: Event)
    requires PaymentsOk(s) && e.InitPayment? && Transaction(s, e).Some?
    ensures PaymentsOk(Step(s, e))
  {
    var t := Step(s, e);
    forall j | 0 <= j < |t.payments| ensures PaymentOk(t.payments[j], t.orders) {
      assert j < |s.payments| ==> PaymentOk(s.payments[j], s.orders);
    }
  }

  lemma StepKeepsPayments(s: Shop, e: Event)
    requires WellFormed(s) && PaymentsOk(s)
    ensures PaymentsOk(Step(s, e))
  {
    var t := Step(s, e);
    PaymentsEvolve(s, e);
    if t.payments == s.payments {
      forall j | 0 <= j < |t.payments| ensures PaymentOk(t.payments[j], t.orders) {
        PaymentStaysOk(s.payments[j], s, e);
      }
    } else if e.InitPayment? {
      InitKeepsPayments(s, e);
    } else {
      SettlingKeepsPayments(s, e, FindPayment(s.payments, e.authority).value);
    }
  }

  /** The gateway answered: a first callback settles its payment exactly if the order awaits payment. */
  lemma CallbackSettlesIff(s: Shop, a: Authority, ok: bool, v: Verification)
    requires WellFormed(s) && PaymentsOk(s)
    requires var i := FindPayment(s.payments, a); i.Some? && s.payments[i.value].status == Initiated
    requires !(ok && v.Unavailable?)
    ensures var i := FindPayment(s.payments, a).value;
            var t := Step(s, Callback(a, ok, v));
            && (SettledAt(s, t, i) <==> s.orders[s.payments[i].order].status == AwaitingPayment)
            && (!SettledAt(s, t, i) ==> t == s)
            && (SettledAt(s, t, i) ==> (t.payments[i].status == Verified <==> ok && v.Accepted?))
  {
    var i := FindPayment(s.payments, a).value;
    assert PaymentOk(s.payments[i], s.orders);
    assert OrderOk(s.orders[s.payments[i].order], s.stock);
    if CallbackTx(s, a, ok, v).Some? {
      CallbackSettles(s, a, ok, v);
    }
  }

  predicate Final(status: PaymentStatus) {
    status in {Verified, Failed}
  }

  lemma {:induction false} PaymentsAreFinal(s: Shop, events: seq<Event>, i: nat)
    requires i < |s.payments|
    ensures i < |Run(s, events).payments|
    ensures Final(s.payments[i].status) ==> Run(s, events).payments[i] == s.payments[i]
    ensures Run(s, events).payments[i].authority == s.payments[i].authority
    decreases |events|
  {
    if events != [] {
      var init := events[..|events| - 1];
      PaymentsAreFinal(s, init, i);
      var u, t := Run(s, init), Run(s, events);
      PaymentsEvolve(u, events[|events| - 1]);
      assert |u.payments| < |t.payments| ==> t.payments[i] == t.payments[..|u.payments|][i];
    }
  }

  lemma {:induction false} RunKeepsPayments(s: Shop, events: seq<Event>)
    requires WellFormed(s) && PaymentsOk(s)
    ensures PaymentsOk(Run(s, events))
    decreases |events|
  {
    if events != [] {
      var init := events[..|events| - 1];
      RunKeepsPayments(s, init);
      RunKeepsWellFormed(s, init);
      StepKeepsPayments(Run(s, init), events[|events| - 1]);
    }
  }

  lemma AuthorityIsUnique(payments: seq<Payment>, i: nat)
    requires i < |payments|
    requires forall j, k :: 0 <= j < k < |payments| ==> payments[j].authority != payments[k].authority
    ensures FindPayment(payments, payments[i].authority) == Some(i)
  {
    var found := FindPayment(payments, payments[i].authority);
    assert found.Some? ==> payments[found.value].authority == payments[i].authority;
  }

  /** Once a payment is settled, a later callback for it changes no table, whatever it claims. */
  lemma SettledCallbackIsReplay(s: Shop, i: nat, events: seq<Event>, ok: bool, v: Verification)
    requires WellFormed(s) && PaymentsOk(s) && i < |s.payments| && Final(s.payments[i].status)
    ensures Run(s, events + [Callback(s.payments[i].authority, ok, v)]) == Run(s, events)
  {
    var e := Callback(s.payments[i].authority, ok, v);
    assert (events + [e])[..|events|] == events;
    PaymentsAreFinal(s, events, i);
    RunKeepsPayments(s, events);
    AuthorityIsUnique(Run(s, events).payments, i);
  }

  /** How many callbacks of a run settled payment `i`. */
  ghost function Wins(s: Shop, events: seq<Event>, i: nat): nat {
    if events == [] then 0
    else
      var init := events[..|events| - 1];
      Wins(s, init, i) +
      if events[|events| - 1].Callback? && SettledAt(Run(s, init), Run(s, events), i) then 1 else 0
  }

  /** At most one callback wins, and one has won exactly when the payment has left `initiated`. */
  lemma {:induction false} OneCallbackWins(s: Shop, events: seq<Event>, i: nat)
    requires WellFormed(s) && PaymentsOk(s) && i < |s.payments| && s.payments[i].status == Initiated
    ensures i < |Run(s, events).payments|
    ensures Wins(s, events, i) == if Run(s, events).payments[i].status == Initiated then 0 else 1
    decreases |events|
  {
    PaymentsAreFinal(s, events, i);
    if events != [] {
      var init, e := events[..|events| - 1], events[|events| - 1];
      OneCallbackWins(s, init, i);
      RunKeepsPayments(s, init);
      var u, t := Run(s, init), Run(s, events);
      PaymentsAreFinal(s, init, i);
      PaymentsEvolve(u, e);
      assert |u.payments| < |t.payments| ==> t.payments[i] == t.payments[..|u.payments|][i];
      assert PaymentOk(u.payments[i], u.orders);
    }
  }

  /** In every run from an empty shop. */
  lemma OneVerifiedPaymentPerOrder(events: seq<Event>, i: nat, j: nat)
    requires i < |Run(EMPTY_SHOP, events).payments| && j < |Run(EMPTY_SHOP, events).payments|
    ensures var t := Run(EMPTY_SHOP, events);
            var p, q := t.payments[i], t.payments[j];
            && p.order < |t.orders|
            && p.status != Claimed
            && p.amount == t.orders[p.order].total
            && (p.status == Verified ==> HistoryEntry(AwaitingPayment, Paid) in t.orders[p.order].history)
            && (i != j && p.status == Verified && q.status == Verified ==> p.order != q.order)
  {
    EmptyShopWellFormed();
    RunKeepsPayments(EMPTY_SHOP, events);
    var t := Run(EMPTY_SHOP, events);
    assert PaymentOk(t.payments[i], t.orders);
  }

  /** Who can change the status of an order: an admin, its owner cancelling, or a callback while it awaits payment. */
  lemma WhoMovesOrders(s: Shop, e: Event, id: OrderId)
    requires id < |s.orders|
    ensures id < |Step(s, e).orders|
    ensures var before, after := s.orders[id].status, Step(s, e).orders[id].status;
            || after == before
            || (e.UpdateStatus? && e.order == id && after == e.to)
            || (e.CancelOrder? && e.order == id && after == Cancelled && (e.user == s.orders[id].user || e.privileged))
            || (e.Callback? && before == AwaitingPayment && after in {Paid, PaymentFailed})
  {
    match e
    case Checkout(u) =>
    case Callback(a, ok, v) =>
      if CallbackTx(s, a, ok, v).Some? {
        CallbackSettles(s, a, ok, v);
      }
    case CancelOrder(o, u, priv) =>
    case UpdateStatus(o, to) =>
    case _ => QuietOrders(s, e);
  }

  /**
   * A failed order accepts a new payment, but as long as it stays failed every callback for that payment
   * is undone, even when the gateway has taken the money: the attempt never leaves `initiated`.
   */
  lemma PayingAgainIsUndone(s: Shop, id: OrderId, a: Authority, ok: bool, v: Verification)
    requires WellFormed(s) && id < |s.orders| && s.orders[id].status == PaymentFailed
    requires FindPayment(s.payments, a).None?
    ensures var t := Step(s, InitPayment(s.orders[id].user, id, Handed(a)));
            && t == s.(payments := s.payments + [Payment(id, s.orders[id].user, s.orders[id].total, Initiated, a)])
            && Step(t, Callback(a, ok, v)) == t
            && Transaction(t, Callback(a, ok, v)).None?
  {
    var t := s.(payments := s.payments + [Payment(id, s.orders[id].user, s.orders[id].total, Initiated, a)]);
    assert InitPaymentTx(s, s.orders[id].user, id, Handed(a)) == Some(t);
    assert FindPayment(t.payments, a) == Some(|s.payments|);
    FailedOrderRefusesCallback(t, a, ok, v);
  }

  /** No callback settles a payment while its order is failed. */
  lemma FailedOrderRefusesCallback(s: Shop, a: Authority, ok: bool, v: Verification)
    requires var i := FindPayment(s.payments, a);
             && i.Some? && s.payments[i.value].status == Initiated
             && s.payments[i.value].order < |s.orders| && s.orders[s.payments[i.value].order].status == PaymentFailed
    ensures CallbackTx(s, a, ok, v).None?
  {
    if CallbackTx(s, a, ok, v).Some? {
      CallbackNeedsOpenOrder(s, a, ok, v);
      assert false;
    }
  }

  /** Nothing but an admin reopens a failed order: without one it stays failed or ends cancelled. */
  lemma {:induction false} FailedOrderNeedsAdmin(s: Shop, events: seq<Event>, id: OrderId)
    requires WellFormed(s) && PaymentsOk(s) && id < |s.orders| && s.orders[id].status == PaymentFailed
    requires forall k :: 0 <= k < |events| ==> !(events[k].UpdateStatus? && events[k].order == id)
    ensures id < |Run(s, events).orders| && Run(s, events).orders[id].status in {PaymentFailed, Cancelled}
    decreases |events|
  {
    if events != [] {
      var init, e := events[..|events| - 1], events[|events| - 1];
      assert forall k :: 0 <= k < |init| ==> init[k] == events[k];
      FailedOrderNeedsAdmin(s, init, id);
      WhoMovesOrders(Run(s, init), e, id);
    }
  }

  // ---- Sales -------------------------------------------------------------------------------

  /** Units of `p` that a verified payment sold. */
  function SoldBy(orders: seq<Order>, p: ProductId): Payment -> int {
    (pay: Payment) => if pay.status == Verified && pay.order < |orders| then Qty(orders[pay.order].lines, p) else 0
  }

  /** The stock history sells exactly what verified payments bought. */
  ghost predicate SalesMatch(s: Shop, p: ProductId) {
    Sum(s.movements, PurchasedUnits(p)) == Sum(s.payments, SoldBy(s.orders, p))
  }

  lemma SoldByIsStable(s: Shop, e: Event, p: ProductId)
    requires PaymentsOk(s)
    ensures Sum(s.payments, SoldBy(Step(s, e).orders, p)) == Sum(s.payments, SoldBy(s.orders, p))
  {
    OrdersEvolve(s, e);
    forall pay | pay in s.payments ensures SoldBy(Step(s, e).orders, p)(pay) == SoldBy(s.orders, p)(pay) {
      assert PaymentOk(pay, s.orders);
      assert OrderAdvances(s.orders[pay.order], Step(s, e).orders[pay.order]);
    }
    SumCongruent(s.payments, SoldBy(Step(s, e).orders, p), SoldBy(s.orders, p));
  }

  lemma UnsoldLines(movements: seq<Movement>, kind: MovementKind, lines: seq<Line>, id: OrderId, p: ProductId)
    requires kind in {Reserve, Release}
    ensures Sum(movements + LineMovements(kind, lines, id), PurchasedUnits(p)) == Sum(movements, PurchasedUnits(p))
  {
    LineMovementsEffect(kind, lines, id, p);
    SumConcat(movements, LineMovements(kind, lines, id), PurchasedUnits(p));
  }

  lemma UnsoldMovements(s: Shop, e: Event, p: ProductId)
    requires !e.Callback?
    ensures Sum(Step(s, e).movements, PurchasedUnits(p)) == Sum(s.movements, PurchasedUnits(p))
  {
    if Transaction(s, e).Some? {
      match e
      case Checkout(u) => UnsoldLines(s.movements, Reserve, CartOf(s.carts, u), |s.orders|, p);
      case CancelOrder(id, _, _) => UnsoldLines(s.movements, Release, s.orders[id].lines, id, p);
      case RestockProduct(q, d) => SumSnoc(s.movements, Movement(q, Restock, d, None), PurchasedUnits(p));
      case AdjustProduct(q, d) => SumSnoc(s.movements, Movement(q, Adjust, d, None), PurchasedUnits(p));
      case _ =>
    }
  }

  /** Settling sells the order's units exactly if the payment becomes verified. */
  lemma SettlingSells(s: Shop, t: Shop, i: nat, p: ProductId)
    requires SettledAt(s, t, i) && SalesMatch(s, p)
    requires Sum(s.payments, SoldBy(t.orders, p)) == Sum(s.payments, SoldBy(s.orders, p))
    requires var id := s.payments[i].order;
             t.movements == s.movements
               + LineMovements(if t.payments[i].status == Verified then Purchase else Release, s.orders[id].lines, id)
    ensures SalesMatch(t, p)
  {
    var id := s.payments[i].order;
    var lines := s.orders[id].lines;
    var kind := if t.payments[i].status == Verified then Purchase else Release;
    LineMovementsEffect(kind, lines, id, p);
    SumConcat(s.movements, LineMovements(kind, lines, id), PurchasedUnits(p));
    SumUpdate(s.payments, i, t.payments[i], SoldBy(t.orders, p));
    assert t.orders[id].lines == lines;
  }

  lemma CallbackKeepsSales(s: Shop, e: Event, p: ProductId)
    requires WellFormed(s) && PaymentsOk(s) && SalesMatch(s, p) && e.Callback?
    ensures SalesMatch(Step(s, e), p)
  {
    if CallbackTx(s, e.authority, e.gatewayOk, e.verification).Some? {
      CallbackSettles(s, e.authority, e.gatewayOk, e.verification);
      SoldByIsStable(s, e, p);
      if Step(s, e) != s {
        SettlingSells(s, Step(s, e), FindPayment(s.payments, e.authority).value, p);
      }
    }
  }

  lemma StepKeepsSales(s: Shop, e: Event, p: ProductId)
    requires WellFormed(s) && PaymentsOk(s) && SalesMatch(s, p)
    ensures SalesMatch(Step(s, e), p)
  {
    if e.Callback? {
      CallbackKeepsSales(s, e, p);
    } else {
      var t := Step(s, e);
      UnsoldMovements(s, e, p);
      SoldByIsStable(s, e, p);
      PaymentsEvolve(s, e);
      if t.payments != s.payments {
        var added := t.payments[|s.payments|];
        assert t.payments == s.payments + [added];
        SumSnoc(s.payments, added, SoldBy(t.orders, p));
      }
    }
  }

  /** In every run from an empty shop, for every product. */
  lemma {:induction false} UnitsSoldWerePaidFor(events: seq<Event>, p: ProductId)
    ensures SalesMatch(Run(EMPTY_SHOP, events), p)
    decreases |events|
  {
    EmptyShopWellFormed();
    if events != [] {
      var init := events[..|events| - 1];
      UnitsSoldWerePaidFor(init, p);
      RunKeepsWellFormed(EMPTY_SHOP, init);
      RunKeepsPayments(EMPTY_SHOP, init);
      StepKeepsSales(Run(EMPTY_SHOP, init), events[|events| - 1], p);
    }
  }
}
