/**
 * Reservations against open demand, and the stock against its history, over every run of the shop.
 * Two routes move an order without the matching stock movement, so the laws say exactly by how much
 * each step shifts the balance, and which steps keep it.
 */
module StockLaws {
  import opened Prelude
  import opened Sums
  import opened OrderGraph
  import opened Shop
  import opened StockMoves

  // ---- Well-formed tables ------------------------------------------------------------------

  ghost predicate OrderOk(o: Order, stock: map<ProductId, Stock>) {
    && o.lines != []
    && (forall i :: 0 <= i < |o.lines| ==> 1 <= o.lines[i].quantity && o.lines[i].product in stock)
    && |o.unitPrices| == |o.lines|
    && o.total == LinesTotal(o.lines, o.unitPrices)
    && o.history != []
    && Chain(o.history, Pending, o.status)
    && (o.cancelStamped <==> o.status == Cancelled)
  }

  ghost predicate CartOk(cart: seq<Line>) {
    && DistinctProducts(cart)
    && forall i :: 0 <= i < |cart| ==> 1 <= cart[i].quantity
  }

  ghost predicate WellFormed(s: Shop) {
    && (forall p :: p in s.stock ==> s.stock[p].ChecksHold())
    && (forall i :: 0 <= i < |s.orders| ==> OrderOk(s.orders[i], s.stock))
    && (forall u :: u in s.carts ==> CartOk(s.carts[u]))
  }

  lemma PutLineKeepsCart(cart: seq<Line>, line: Line)
    requires CartOk(cart) && 1 <= line.quantity
    ensures CartOk(PutLine(cart, line))
  {
  }

  lemma DropLineKeepsCart(cart: seq<Line>, p: ProductId)
    requires CartOk(cart)
    ensures CartOk(DropLine(cart, p)) && !Listed(DropLine(cart, p), p)
  {
    var i := FindLine(cart, p);
    if i.Some? {
      var rest := DropLine(cart, p);
      assert forall j :: 0 <= j < |rest| ==> rest[j] == if j < i.value then cart[j] else cart[j + 1];
    }
  }

  lemma MovedOrderOk(o: Order, to: OrderStatus, stock: map<ProductId, Stock>)
    requires OrderOk(o, stock) && Allowed(o.status, to)
    ensures OrderOk(MovedOrder(o, to), stock)
  {
    ChainExtend(o.history, Pending, o.status, to);
  }

  lemma PlacedOrderOk(s: Shop, user: UserId)
    requires WellFormed(s) && CanCheckout(s, user)
    ensures OrderOk(PlacedOrder(s.products, user, CartOf(s.carts, user)), s.stock)
  {
    var h := [HistoryEntry(Pending, AwaitingPayment)];
    assert h[..0] == [];
    assert Chain(h, Pending, AwaitingPayment);
  }

  /** Moving rows keeps the check constraints: clamped moves always, reservations within what is available. */
  lemma MoveLinesKeepsChecks(kind: MovementKind, stock: map<ProductId, Stock>, lines: seq<Line>)
    requires forall p :: p in stock ==> stock[p].ChecksHold()
    requires kind in {Reserve, Release, Purchase}
    requires kind == Reserve ==> forall i :: 0 <= i < |lines| && lines[i].product in stock ==>
               Qty(lines, lines[i].product) <= stock[lines[i].product].Available()
    ensures forall p :: p in MoveLines(kind, stock, lines) ==> MoveLines(kind, stock, lines)[p].ChecksHold()
  {
    forall p | p in stock ensures MoveLines(kind, stock, lines)[p].ChecksHold() {
      QtyBounds(lines, p);
    }
  }

  lemma MoveOrderKeepsWellFormed(s: Shop, id: OrderId, to: OrderStatus, kind: MovementKind)
    requires WellFormed(s) && kind in {Release, Purchase}
    ensures MoveOrderTx(s, id, to, kind).Some? ==> WellFormed(MoveOrderTx(s, id, to, kind).value)
  {
    if MoveOrderTx(s, id, to, kind).Some? {
      MoveLinesKeepsChecks(kind, s.stock, s.orders[id].lines);
      MovedOrderOk(s.orders[id], to, s.stock);
    }
  }

  lemma AdminMoveKeepsWellFormed(s: Shop, id: OrderId, to: OrderStatus)
    requires WellFormed(s)
    ensures AdminMoveTx(s, id, to).Some? ==> WellFormed(AdminMoveTx(s, id, to).value)
  {
    if AdminMoveTx(s, id, to).Some? {
      MovedOrderOk(s.orders[id], to, s.stock);
    }
  }

  lemma CheckoutKeepsWellFormed(s: Shop, user: UserId)
    requires WellFormed(s) && CanCheckout(s, user)
    ensures WellFormed(CheckoutTx(s, user).value)
  {
    var cart := CartOf(s.carts, user);
    MoveLinesKeepsChecks(Reserve, s.stock, cart);
    PlacedOrderOk(s, user);
  }

  lemma NewCartKeepsWellFormed(s: Shop, user: UserId, cart: seq<Line>)
    requires WellFormed(s) && CartOk(cart)
    ensures WellFormed(s.(carts := s.carts[user := cart]))
  {
  }

  lemma CartStepKeepsWellFormed(s: Shop, e: Event)
    requires WellFormed(s) && (e.AddItem? || e.UpdateItem? || e.RemoveItem? || e.ClearCart?)
    ensures WellFormed(Step(s, e)) && Step(s, e).stock == s.stock
  {
    var cart := CartOf(s.carts, e.user);
    match e
    case AddItem(u, p, q) =>
      if AddItemTx(s, u, p, q).Some? {
        var existing := FindLine(cart, p);
        var line := Line(p, q + if existing.Some? then cart[existing.value].quantity else 0);
        PutLineKeepsCart(cart, line);
        NewCartKeepsWellFormed(s, u, PutLine(cart, line));
      }
    case UpdateItem(u, p, q) =>
      if UpdateItemTx(s, u, p, q).Some? {
        PutLineKeepsCart(cart, Line(p, q));
        NewCartKeepsWellFormed(s, u, PutLine(cart, Line(p, q)));
      }
    case RemoveItem(u, p) =>
      DropLineKeepsCart(cart, p);
      NewCartKeepsWellFormed(s, u, DropLine(cart, p));
    case ClearCart(u) => NewCartKeepsWellFormed(s, u, []);
  }

  lemma CallbackKeepsWellFormed(s: Shop, a: Authority, ok: bool, v: Verification)
    requires WellFormed(s)
    ensures CallbackTx(s, a, ok, v).Some? ==> WellFormed(CallbackTx(s, a, ok, v).value)
    ensures CallbackTx(s, a, ok, v).Some? ==> CallbackTx(s, a, ok, v).value.stock.Keys == s.stock.Keys
  {
    var found := FindPayment(s.payments, a);
    if found.Some? {
      var p := s.payments[found.value];
      MoveOrderKeepsWellFormed(s.(payments := s.payments[found.value := p.(status := Verified)]), p.order, Paid, Purchase);
      MoveOrderKeepsWellFormed(s.(payments := s.payments[found.value := p.(status := Failed)]), p.order, PaymentFailed, Release);
    }
  }

  /** Rows may be added and changed within their checks; orders do not mind. */
  lemma NewRowKeepsWellFormed(s: Shop, t: Shop, p: ProductId, row: Stock)
    requires WellFormed(s) && row.ChecksHold()
    requires t.stock == s.stock[p := row] && t.orders == s.orders && t.carts == s.carts
    ensures WellFormed(t) && s.stock.Keys <= t.stock.Keys
  {
    forall i | 0 <= i < |t.orders| ensures OrderOk(t.orders[i], t.stock) {
      assert OrderOk(s.orders[i], s.stock);
    }
  }

  lemma StockStepKeepsWellFormed(s: Shop, e: Event)
    requires WellFormed(s) && (e.RestockProduct? || e.AdjustProduct? || e.CreateProduct? || e.UpdateProduct?)
    ensures WellFormed(Step(s, e)) && s.stock.Keys <= Step(s, e).stock.Keys
  {
    if Transaction(s, e).Some? {
      match e
      case RestockProduct(p, d) => NewRowKeepsWellFormed(s, Step(s, e), p, MoveRow(Restock, s.stock[p], d));
      case AdjustProduct(p, d) => NewRowKeepsWellFormed(s, Step(s, e), p, MoveRow(Adjust, s.stock[p], d));
      case CreateProduct(p, f, n) => NewRowKeepsWellFormed(s, Step(s, e), p, Stock(n, 0));
      case UpdateProduct(p, f) =>
    }
  }

  /** Bounds, totals, history chains and carts survive every transaction, without exception. */
  lemma StepKeepsWellFormed(s: Shop, e: Event)
    requires WellFormed(s)
    ensures WellFormed(Step(s, e))
    ensures s.stock.Keys <= Step(s, e).stock.Keys
  {
    match e
    case AddItem(_, _, _) => CartStepKeepsWellFormed(s, e);
    case UpdateItem(_, _, _) => CartStepKeepsWellFormed(s, e);
    case RemoveItem(_, _) => CartStepKeepsWellFormed(s, e);
    case ClearCart(_) => CartStepKeepsWellFormed(s, e);
    case Checkout(u) =>
      if CanCheckout(s, u) {
        CheckoutKeepsWellFormed(s, u);
      }
    case Callback(a, ok, v) => CallbackKeepsWellFormed(s, a, ok, v);
    case CancelOrder(o, u, priv) =>
      MoveOrderKeepsWellFormed(s, o, Cancelled, Release);
      AdminMoveKeepsWellFormed(s, o, Cancelled);
    case UpdateStatus(o, to) => AdminMoveKeepsWellFormed(s, o, to);
    case RestockProduct(_, _) => StockStepKeepsWellFormed(s, e);
    case AdjustProduct(_, _) => StockStepKeepsWellFormed(s, e);
    case CreateProduct(_, _, _) => StockStepKeepsWellFormed(s, e);
    case UpdateProduct(_, _) => StockStepKeepsWellFormed(s, e);
    case _ =>
  }

  lemma {:induction false} RunKeepsWellFormed(s: Shop, events: seq<Event>)
    requires WellFormed(s)
    ensures WellFormed(Run(s, events))
    ensures s.stock.Keys <= Run(s, events).stock.Keys
    ensures var t := Run(s, events); forall p :: p in t.stock ==> 0 <= t.stock[p].reserved <= t.stock[p].total
    decreases |events|
  {
    if events != [] {
      RunKeepsWellFormed(s, events[..|events| - 1]);
      StepKeepsWellFormed(Run(s, events[..|events| - 1]), events[|events| - 1]);
    }
  }

  lemma EmptyShopWellFormed()
    ensures WellFormed(EMPTY_SHOP)
  {
  }

  // ---- Reservations against open demand ----------------------------------------------------

  function OpenQuantity(p: ProductId): Order -> int {
    (o: Order) => if o.status == AwaitingPayment then Qty(o.lines, p) else 0
  }

  /** Units of `p` in all orders awaiting payment. */
  function OpenDemand(orders: seq<Order>, p: ProductId): int {
    Sum(orders, OpenQuantity(p))
  }

  /** Reserved units that no open order accounts for. */
  function Slack(s: Shop, p: ProductId): int
    requires p in s.stock
  {
    s.stock[p].reserved - OpenDemand(s.orders, p)
  }

  /** Every open order is backed by reservations. */
  ghost predicate Covered(s: Shop) {
    forall p :: p in s.stock ==> 0 <= Slack(s, p)
  }

  /** Reservations are open demand, no more and no less. */
  ghost predicate Accounted(s: Shop) {
    forall p :: p in s.stock ==> Slack(s, p) == 0
  }

  // ---- Requests that move the lines of an order --------------------------------------------

  /** The guards of a cancel: the order exists, the user may cancel it, and it can still be cancelled. */
  predicate CancelGoes(s: Shop, id: OrderId, user: UserId, privileged: bool) {
    && id < |s.orders|
    && (s.orders[id].user == user || privileged)
    && Allowed(s.orders[id].status, Cancelled)
  }

  /** The guards of an admin move. */
  predicate AdminMoveGoes(s: Shop, id: OrderId, to: OrderStatus) {
    id < |s.orders| && Allowed(s.orders[id].status, to)
  }

  /** The guards of a callback that settles: a fresh claim, an answer, and an order awaiting payment. */
  predicate CallbackGoes(s: Shop, a: Authority, ok: bool, v: Verification) {
    var i := FindPayment(s.payments, a);
    && i.Some?
    && s.payments[i.value].status == Initiated
    && !(ok && v.Unavailable?)
    && s.payments[i.value].order < |s.orders|
    && s.orders[s.payments[i.value].order].status == AwaitingPayment
  }

  /** Order `order` changes status and its lines are released or purchased. */
  datatype LineMove = LineMove(order: OrderId, to: OrderStatus, kind: MovementKind)

  function Moves(s: Shop, e: Event): (m: Option<LineMove>)
    ensures m.Some? ==>
      && m.value.order < |s.orders| && Allowed(s.orders[m.value.order].status, m.value.to)
      && m.value.kind in {Release, Purchase} && m.value.to != AwaitingPayment
  {
    match e
    case Callback(a, ok, v) =>
      if !CallbackGoes(s, a, ok, v) then None
      else
        var id := s.payments[FindPayment(s.payments, a).value].order;
        Some(if ok && v.Accepted? then LineMove(id, Paid, Purchase) else LineMove(id, PaymentFailed, Release))
    case CancelOrder(id, u, priv) =>
      if CancelGoes(s, id, u, priv) && s.orders[id].status in {AwaitingPayment, Paid}
      then Some(LineMove(id, Cancelled, Release))
      else None
    case _ => None
  }

  /** The stock, the history and the orders after a line move. */
  predicate LinesMoved(s: Shop, m: LineMove, t: Shop)
    requires m.order < |s.orders|
  {
    var o := s.orders[m.order];
    && t.stock == MoveLines(m.kind, s.stock, o.lines)
    && t.movements == s.movements + LineMovements(m.kind, o.lines, m.order)
    && t.orders == s.orders[m.order := MovedOrder(o, m.to)]
  }

  lemma OrderIsStocked(s: Shop, id: OrderId)
    requires WellFormed(s) && id < |s.orders|
    ensures Stocked(s.stock, s.orders[id].lines) && s.orders[id].status != Pending
  {
    assert OrderOk(s.orders[id], s.stock);
  }

  /** A cancel that passes its guards releases the lines of an open or paid order, else it moves the status alone. */
  lemma CancelIs(s: Shop, id: OrderId, user: UserId, privileged: bool)
    requires WellFormed(s)
    ensures CancelTx(s, id, user, privileged)
         == if !CancelGoes(s, id, user, privileged) then None
            else if s.orders[id].status in {AwaitingPayment, Paid} then MoveOrderTx(s, id, Cancelled, Release)
            else AdminMoveTx(s, id, Cancelled)
  {
    if id < |s.orders| {
      OrderIsStocked(s, id);
    }
  }

  /** The tables when a callback has set the status of its payment, and before it touches the order. */
  function PaymentSet(s: Shop, i: nat, status: PaymentStatus): Shop
    requires i < |s.payments|
  {
    s.(payments := s.payments[i := s.payments[i].(status := status)])
  }

  lemma CallbackTxIs(s: Shop, a: Authority, ok: bool, v: Verification)
    requires WellFormed(s)
    ensures if CallbackGoes(s, a, ok, v) then
              var i := FindPayment(s.payments, a).value;
              var p := s.payments[i];
              && CallbackTx(s, a, ok, v)
                   == (if ok && v.Accepted? then MoveOrderTx(PaymentSet(s, i, Verified), p.order, Paid, Purchase)
                       else MoveOrderTx(PaymentSet(s, i, Failed), p.order, PaymentFailed, Release))
              && CallbackTx(s, a, ok, v).Some?
            else CallbackTx(s, a, ok, v) in {None, Some(s)}
  {
    if CallbackGoes(s, a, ok, v) {
      OrderIsStocked(s, s.payments[FindPayment(s.payments, a).value].order);
    }
  }

  /** A callback moves the lines of its order if it passes its guards, else it changes nothing. */
  lemma CallbackIs(s: Shop, a: Authority, ok: bool, v: Verification, t: Shop)
    requires WellFormed(s) && t == Step(s, Callback(a, ok, v))
    ensures var m := Moves(s, Callback(a, ok, v));
            if m.Some? then LinesMoved(s, m.value, t) else t == s
  {
    CallbackTxIs(s, a, ok, v);
  }

  // ---- The exact shift of every request ----------------------------------------------------

  /**
   * What a request does to the slack of `p`. Moving the lines of an open order frees its demand and takes
   * what is reserved, so only the clamp shifts it; a paid order has no demand left to free.
   */
  function SlackShift(s: Shop, e: Event, p: ProductId): int
    requires p in s.stock
  {
    match Moves(s, e)
    case Some(m) =>
      var demand := Qty(s.orders[m.order].lines, p);
      (if s.orders[m.order].status == AwaitingPayment then demand else 0) - Min(s.stock[p].reserved, demand)
    case None =>
      if e.UpdateStatus? && AdminMoveGoes(s, e.order, e.to) then
        var demand := Qty(s.orders[e.order].lines, p);
        if s.orders[e.order].status == AwaitingPayment then demand
        else if e.to == AwaitingPayment then 0 - demand
        else 0
      else 0
  }

  /** An order that is open is covered by the demand it is part of. */
  lemma OrderWithinDemand(s: Shop, id: OrderId, p: ProductId)
    requires id < |s.orders|
    ensures 0 <= OpenDemand(s.orders, p)
    ensures s.orders[id].status == AwaitingPayment ==> Qty(s.orders[id].lines, p) <= OpenDemand(s.orders, p)
  {
    forall o | o in s.orders ensures 0 <= OpenQuantity(p)(o) {
      QtyBounds(o.lines, p);
    }
    SumCoversTerm(s.orders, OpenQuantity(p));
    assert OpenQuantity(p)(s.orders[id]) <= OpenDemand(s.orders, p);
  }

  /** Covered orders are reserved in full: the clamps of a release or a purchase do not cut in. */
  lemma CoveredOrderIsReserved(s: Shop, id: OrderId, p: ProductId)
    requires Covered(s) && p in s.stock && id < |s.orders| && s.orders[id].status == AwaitingPayment
    ensures Qty(s.orders[id].lines, p) <= s.stock[p].reserved
  {
    OrderWithinDemand(s, id, p);
    assert 0 <= Slack(s, p);
  }

  lemma AdminMoveSlack(s: Shop, id: OrderId, to: OrderStatus, p: ProductId)
    requires p in s.stock && AdminMoveTx(s, id, to).Some?
    ensures Slack(AdminMoveTx(s, id, to).value, p) == Slack(s, p)
      + (if s.orders[id].status == AwaitingPayment then Qty(s.orders[id].lines, p) else 0)
      - (if to == AwaitingPayment then Qty(s.orders[id].lines, p) else 0)
  {
    SumUpdate(s.orders, id, MovedOrder(s.orders[id], to), OpenQuantity(p));
  }

  lemma LineMoveSlack(s: Shop, m: LineMove, t: Shop, p: ProductId)
    requires WellFormed(s) && p in s.stock && m.order < |s.orders| && LinesMoved(s, m, t)
    requires m.kind in {Release, Purchase} && m.to != AwaitingPayment
    ensures p in t.stock && Slack(t, p) == Slack(s, p)
      + (if s.orders[m.order].status == AwaitingPayment then Qty(s.orders[m.order].lines, p) else 0)
      - Min(s.stock[p].reserved, Qty(s.orders[m.order].lines, p))
  {
    var o := s.orders[m.order];
    SumUpdate(s.orders, m.order, MovedOrder(o, m.to), OpenQuantity(p));
    assert s.stock[p].ChecksHold();
    QtyBounds(o.lines, p);
    if !Listed(o.lines, p) {
      QtyUnlisted(o.lines, p);
    }
  }

  lemma CheckoutSlack(s: Shop, user: UserId, p: ProductId)
    requires p in s.stock && CanCheckout(s, user)
    ensures Slack(CheckoutTx(s, user).value, p) == Slack(s, p)
  {
    var cart := CartOf(s.carts, user);
    NewDemand(s.orders, PlacedOrder(s.products, user, cart), p);
    ReservedLines(s.stock, cart, p);
  }

  lemma NewDemand(orders: seq<Order>, o: Order, p: ProductId)
    requires o.status == AwaitingPayment
    ensures OpenDemand(orders + [o], p) == OpenDemand(orders, p) + Qty(o.lines, p)
  {
    SumSnoc(orders, o, OpenQuantity(p));
  }

  lemma ReservedLines(stock: map<ProductId, Stock>, lines: seq<Line>, p: ProductId)
    requires p in stock
    ensures MoveLines(Reserve, stock, lines)[p].reserved == stock[p].reserved + Qty(lines, p)
  {
    if !Listed(lines, p) {
      QtyUnlisted(lines, p);
    }
  }

  lemma CallbackSlack(s: Shop, e: Event, t: Shop, p: ProductId)
    requires WellFormed(s) && p in s.stock && e.Callback? && t == Step(s, e)
    ensures p in t.stock && Slack(t, p) == Slack(s, p) + SlackShift(s, e, p)
  {
    CallbackIs(s, e.authority, e.gatewayOk, e.verification, t);
    if Moves(s, e).Some? {
      LineMoveSlack(s, Moves(s, e).value, t, p);
    }
  }

  lemma CancelSlack(s: Shop, e: Event, t: Shop, p: ProductId)
    requires WellFormed(s) && p in s.stock && e.CancelOrder? && t == Step(s, e)
    ensures p in t.stock && Slack(t, p) == Slack(s, p) + SlackShift(s, e, p)
  {
    CancelIs(s, e.order, e.user, e.privileged);
    if Moves(s, e).Some? {
      OrderIsStocked(s, e.order);
      LineMoveSlack(s, Moves(s, e).value, t, p);
    } else if CancelGoes(s, e.order, e.user, e.privileged) {
      AdminMoveSlack(s, e.order, Cancelled, p);
    }
  }

  lemma UpdateStatusSlack(s: Shop, id: OrderId, to: OrderStatus, t: Shop, p: ProductId)
    requires p in s.stock && t == Step(s, UpdateStatus(id, to))
    ensures p in t.stock && Slack(t, p) == Slack(s, p) + SlackShift(s, UpdateStatus(id, to), p)
  {
    if UpdateStatusTx(s, id, to).Some? {
      AdminMoveSlack(s, id, to, p);
    }
  }

  /** Requests that can move an order, or place one. */
  predicate TouchesOrders(e: Event) {
    e.Checkout? || e.Callback? || e.CancelOrder? || e.UpdateStatus?
  }

  lemma QuietStep(s: Shop, e: Event, p: ProductId)
    requires p in s.stock && !TouchesOrders(e)
    ensures var t := Step(s, e);
            t.orders == s.orders && p in t.stock && t.stock[p].reserved == s.stock[p].reserved
  {
  }

  /** The exact effect of every request on the slack of every product, whether or not orders are covered. */
  lemma SlackLaw(s: Shop, e: Event, p: ProductId)
    requires WellFormed(s) && p in s.stock
    ensures p in Step(s, e).stock
    ensures Slack(Step(s, e), p) == Slack(s, p) + SlackShift(s, e, p)
  {
    var t := Step(s, e);
    if !TouchesOrders(e) {
      QuietStep(s, e, p);
    } else {
      match e
      case Checkout(u) =>
        if CanCheckout(s, u) {
          CheckoutSlack(s, u, p);
        }
      case Callback(_, _, _) => CallbackSlack(s, e, t, p);
      case CancelOrder(_, _, _) => CancelSlack(s, e, t, p);
      case UpdateStatus(id, to) => UpdateStatusSlack(s, id, to, t, p);
    }
  }

  /** A callback settles an initiated payment only while the order awaits payment. */
  lemma CallbackNeedsOpenOrder(s: Shop, a: Authority, ok: bool, v: Verification)
    requires CallbackTx(s, a, ok, v).Some?
    ensures var p := s.payments[FindPayment(s.payments, a).value];
            p.status == Initiated ==> p.order < |s.orders| && s.orders[p.order].status == AwaitingPayment
  {
  }
}
