/** The stock laws over runs: which steps keep them, what a whole run conserves, and where they break. */
module StockRuns {
  import opened Prelude
  import opened Sums
  import opened OrderGraph
  import opened Shop
  import opened StockMoves
  import opened StockLaws

  // ---- Reserved stock equals open demand ---------------------------------------------------

  /**
   * Requests that move an order but not its stock, or its stock twice: an admin move into or out of
   * `awaiting_payment`, and a cancel of a paid order while any of its products is reserved by someone.
   */
  ghost predicate OffBooks(s: Shop, e: Event) {
    match e
    case CancelOrder(id, u, priv) =>
      && CancelGoes(s, id, u, priv) && s.orders[id].status == Paid
      && exists p :: p in s.stock && Listed(s.orders[id].lines, p) && s.stock[p].reserved > 0
    case UpdateStatus(id, to) =>
      AdminMoveGoes(s, id, to) && (s.orders[id].status == AwaitingPayment || to == AwaitingPayment)
    case _ => false
  }

  lemma CallbackKeepsProducts(s: Shop, a: Authority, ok: bool, v: Verification)
    requires CallbackTx(s, a, ok, v).Some?
    ensures CallbackTx(s, a, ok, v).value.stock.Keys == s.stock.Keys
  {
  }

  lemma CancelKeepsProducts(s: Shop, id: OrderId, user: UserId, privileged: bool)
    requires CancelTx(s, id, user, privileged).Some?
    ensures CancelTx(s, id, user, privileged).value.stock.Keys == s.stock.Keys
  {
  }

  lemma OrderStepKeepsProducts(s: Shop, e: Event)
    requires TouchesOrders(e) && Transaction(s, e).Some?
    ensures Transaction(s, e).value.stock.Keys == s.stock.Keys
  {
    match e
    case Callback(a, ok, v) => CallbackKeepsProducts(s, a, ok, v);
    case CancelOrder(id, u, priv) => CancelKeepsProducts(s, id, u, priv);
    case UpdateStatus(id, to) =>
    case Checkout(u) =>
  }

  lemma OtherStepKeepsProducts(s: Shop, e: Event)
    requires !TouchesOrders(e) && !e.CreateProduct? && Transaction(s, e).Some?
    ensures Transaction(s, e).value.stock.Keys == s.stock.Keys
  {
  }

  lemma OnlyCreateAddsStock(s: Shop, e: Event)
    requires !e.CreateProduct?
    ensures Step(s, e).stock.Keys == s.stock.Keys
  {
    if Transaction(s, e).Some? {
      if TouchesOrders(e) {
        OrderStepKeepsProducts(s, e);
      } else {
        OtherStepKeepsProducts(s, e);
      }
    }
  }

  lemma UnlistedHasNoDemand(s: Shop, p: ProductId)
    requires WellFormed(s) && p !in s.stock
    ensures OpenDemand(s.orders, p) == 0
  {
    forall o | o in s.orders ensures OpenQuantity(p)(o) == 0 {
      assert OrderOk(o, s.stock);
      QtyUnlisted(o.lines, p);
    }
    SumOfZeros(s.orders, OpenQuantity(p));
  }

  lemma NewProductHasNoSlack(s: Shop, e: Event, p: ProductId)
    requires WellFormed(s) && p !in s.stock && p in Step(s, e).stock
    ensures Slack(Step(s, e), p) == 0
  {
    if !e.CreateProduct? {
      OnlyCreateAddsStock(s, e);
    } else {
      UnlistedHasNoDemand(s, p);
    }
  }

  lemma {:induction false} SumOfZeros<T>(xs: seq<T>, f: T -> int)
    requires forall x :: x in xs ==> f(x) == 0
    ensures Sum(xs, f) == 0
    decreases |xs|
  {
    if xs != [] {
      SumOfZeros(xs[..|xs| - 1], f);
    }
  }

  /** Lines that ask for something are the ones with a demand. */
  lemma ListedIffAskedFor(s: Shop, id: OrderId, p: ProductId)
    requires WellFormed(s) && id < |s.orders|
    ensures var lines := s.orders[id].lines;
            && (Listed(lines, p) <==> Qty(lines, p) > 0) && 0 <= Qty(lines, p)
            && Listed(lines, lines[0].product) && lines[0].product in s.stock
  {
    var lines := s.orders[id].lines;
    assert OrderOk(s.orders[id], s.stock);
    assert lines[0].product in s.stock;
    QtyBounds(lines, p);
    if !Listed(lines, p) {
      QtyUnlisted(lines, p);
    }
  }

  lemma OnTheBooksNoShift(s: Shop, e: Event, p: ProductId)
    requires WellFormed(s) && Covered(s) && !OffBooks(s, e) && p in s.stock
    ensures SlackShift(s, e, p) == 0
  {
    assert s.stock[p].ChecksHold();
    if Moves(s, e).Some? {
      var id := Moves(s, e).value.order;
      ListedIffAskedFor(s, id, p);
      if s.orders[id].status == AwaitingPayment {
        CoveredOrderIsReserved(s, id, p);
      } else {
        assert Listed(s.orders[id].lines, p) ==> s.stock[p].reserved <= 0;
      }
    }
  }

  lemma OffBooksShifts(s: Shop, e: Event)
    requires WellFormed(s) && OffBooks(s, e)
    ensures exists p :: p in s.stock && SlackShift(s, e, p) != 0
  {
    var lines := s.orders[e.order].lines;
    ListedIffAskedFor(s, e.order, lines[0].product);
    var p := if e.CancelOrder? then var p :| p in s.stock && Listed(lines, p) && s.stock[p].reserved > 0; p
             else lines[0].product;
    ListedIffAskedFor(s, e.order, p);
    assert SlackShift(s, e, p) != 0;
  }

  /** Reserved stock stays equal to open demand exactly through the requests that are on the books. */
  lemma AccountsKeptIff(s: Shop, e: Event)
    requires WellFormed(s) && Accounted(s)
    ensures Accounted(Step(s, e)) <==> !OffBooks(s, e)
  {
    StepKeepsWellFormed(s, e);
    forall p | p in s.stock
      ensures p in Step(s, e).stock && Slack(Step(s, e), p) == SlackShift(s, e, p)
      ensures !OffBooks(s, e) ==> SlackShift(s, e, p) == 0
    {
      SlackLaw(s, e, p);
      if !OffBooks(s, e) {
        OnTheBooksNoShift(s, e, p);
      }
    }
    forall p | p in Step(s, e).stock && p !in s.stock ensures Slack(Step(s, e), p) == 0 {
      NewProductHasNoSlack(s, e, p);
    }
    if OffBooks(s, e) {
      OffBooksShifts(s, e);
      var p :| p in s.stock && SlackShift(s, e, p) != 0;
      assert Slack(Step(s, e), p) != 0;
    }
  }

  ghost predicate OnTheBooks(s: Shop, events: seq<Event>) {
    events == [] ||
    (OnTheBooks(s, events[..|events| - 1]) && !OffBooks(Run(s, events[..|events| - 1]), events[|events| - 1]))
  }

  /** In every run on the books each product's reservations are the open demand for it. */
  lemma ReservationsAreOpenDemand(s: Shop, events: seq<Event>)
    requires WellFormed(s) && Accounted(s) && OnTheBooks(s, events)
    ensures var t := Run(s, events);
            forall p :: p in t.stock ==> t.stock[p].reserved == OpenDemand(t.orders, p)
  {
    RunAccounted(s, events);
    var t := Run(s, events);
    assert forall p :: p in t.stock ==> Slack(t, p) == 0;
  }

  lemma {:induction false} RunAccounted(s: Shop, events: seq<Event>)
    requires WellFormed(s) && Accounted(s) && OnTheBooks(s, events)
    ensures Accounted(Run(s, events))
    decreases |events|
  {
    if events != [] {
      var init := events[..|events| - 1];
      RunAccounted(s, init);
      RunKeepsWellFormed(s, init);
      AccountsKeptIff(Run(s, init), events[|events| - 1]);
    }
  }

  // ---- Reserved stock covers open demand ---------------------------------------------------

  /** The two routes that can take stock away from orders that are still open. */
  predicate LooseMove(s: Shop, e: Event) {
    match e
    case CancelOrder(id, u, priv) => CancelGoes(s, id, u, priv) && s.orders[id].status == Paid
    case UpdateStatus(id, to) => AdminMoveGoes(s, id, to) && to == AwaitingPayment
    case _ => false
  }

  lemma TightStepFreesSlack(s: Shop, e: Event, p: ProductId)
    requires WellFormed(s) && p in s.stock && !LooseMove(s, e)
    ensures 0 <= SlackShift(s, e, p)
  {
    if e.UpdateStatus? && AdminMoveGoes(s, e.order, e.to) {
      QtyBounds(s.orders[e.order].lines, p);
    }
  }

  /**
   * Orders are covered after a request exactly if the request leaves no product short, covered or not before
   * it. Only a loose move takes slack away.
   */
  lemma CoverageKeptIff(s: Shop, e: Event)
    requires WellFormed(s)
    ensures Covered(Step(s, e)) <==> forall p :: p in s.stock ==> -SlackShift(s, e, p) <= Slack(s, p)
    ensures Covered(s) && !LooseMove(s, e) ==> Covered(Step(s, e))
  {
    var t := Step(s, e);
    StepKeepsWellFormed(s, e);
    forall p | p in s.stock
      ensures p in t.stock && Slack(t, p) == Slack(s, p) + SlackShift(s, e, p)
      ensures !LooseMove(s, e) ==> 0 <= SlackShift(s, e, p)
    {
      SlackLaw(s, e, p);
      if !LooseMove(s, e) {
        TightStepFreesSlack(s, e, p);
      }
    }
    forall p | p in t.stock && p !in s.stock ensures Slack(t, p) == 0 {
      NewProductHasNoSlack(s, e, p);
    }
    if Covered(t) {
      forall p | p in s.stock ensures -SlackShift(s, e, p) <= Slack(s, p) {
        assert 0 <= Slack(t, p);
      }
    }
  }

  /** Settling or cancelling an open order moves its exact quantities: neither `max(0, ..)` clamps. */
  lemma OpenOrdersMoveExactly(s: Shop, id: OrderId, to: OrderStatus, kind: MovementKind, p: ProductId)
    requires WellFormed(s) && Covered(s) && p in s.stock && kind in {Release, Purchase}
    requires MoveOrderTx(s, id, to, kind).Some? && s.orders[id].status == AwaitingPayment
    ensures var row, q := s.stock[p], Qty(s.orders[id].lines, p);
            MoveOrderTx(s, id, to, kind).value.stock[p]
              == Stock(if kind == Purchase then row.total - q else row.total, row.reserved - q)
  {
    CoveredOrderIsReserved(s, id, p);
    if !Listed(s.orders[id].lines, p) {
      QtyUnlisted(s.orders[id].lines, p);
    }
  }

  /** Stock is supplied, or taken back, exactly while no reservation is left without stock. */
  lemma SupplyGoesIff(s: Shop, p: ProductId, delta: int)
    requires WellFormed(s)
    ensures var goes := p in s.stock && s.stock[p].reserved <= s.stock[p].total + delta;
            && (Transaction(s, RestockProduct(p, delta)).Some? <==> goes)
            && (Transaction(s, AdjustProduct(p, delta)).Some? <==> goes)
  {
    if p in s.stock {
      assert s.stock[p].ChecksHold();
    }
  }

  // ---- Conservation ------------------------------------------------------------------------

  /** Units brought in by restocking and adjusting, according to the history. */
  function SuppliedUnits(p: ProductId): Movement -> int {
    (m: Movement) => if m.product == p && m.kind in {Restock, Adjust} then m.quantity else 0
  }

  lemma {:induction false} TotalEffectSplits(ms: seq<Movement>, p: ProductId)
    ensures Sum(ms, TotalEffect(p)) == Sum(ms, SuppliedUnits(p)) - Sum(ms, PurchasedUnits(p))
    decreases |ms|
  {
    if ms != [] {
      TotalEffectSplits(ms[..|ms| - 1], p);
    }
  }

  /** The part of a row its history does not explain: the initial stock. */
  function UnexplainedTotal(s: Shop, p: ProductId): int
    requires p in s.stock
  {
    s.stock[p].total - Sum(s.movements, TotalEffect(p))
  }

  function UnexplainedReserved(s: Shop, p: ProductId): int
    requires p in s.stock
  {
    s.stock[p].reserved - Sum(s.movements, ReservedEffect(p))
  }

  /** Units that the history says were released or purchased and the clamp of the reservations swallowed. */
  function ReservedClamp(s: Shop, e: Event, p: ProductId): int
    requires p in s.stock
  {
    match Moves(s, e)
    case Some(m) => Max(0, Qty(s.orders[m.order].lines, p) - s.stock[p].reserved)
    case None => 0
  }

  /** Units that the history says were purchased and the clamp of the total swallowed. */
  function TotalClamp(s: Shop, e: Event, p: ProductId): int
    requires p in s.stock
  {
    match Moves(s, e)
    case Some(m) => if m.kind == Purchase then Max(0, Qty(s.orders[m.order].lines, p) - s.stock[p].total) else 0
    case None => 0
  }

  lemma LineMoveBooks(s: Shop, m: LineMove, t: Shop, p: ProductId)
    requires WellFormed(s) && p in s.stock && m.order < |s.orders| && LinesMoved(s, m, t) && m.kind in {Release, Purchase}
    ensures var demand := Qty(s.orders[m.order].lines, p);
            && p in t.stock
            && UnexplainedTotal(t, p)
                 == UnexplainedTotal(s, p) + (if m.kind == Purchase then Max(0, demand - s.stock[p].total) else 0)
            && UnexplainedReserved(t, p) == UnexplainedReserved(s, p) + Max(0, demand - s.stock[p].reserved)
  {
    var lines := s.orders[m.order].lines;
    var ms := LineMovements(m.kind, lines, m.order);
    SumConcat(s.movements, ms, TotalEffect(p));
    SumConcat(s.movements, ms, ReservedEffect(p));
    LineMovementsEffect(m.kind, lines, m.order, p);
    QtyBounds(lines, p);
    assert s.stock[p].ChecksHold();
    if !Listed(lines, p) {
      QtyUnlisted(lines, p);
    }
  }

  lemma CheckoutBooks(s: Shop, user: UserId, p: ProductId)
    requires p in s.stock && CanCheckout(s, user)
    ensures var t := CheckoutTx(s, user).value;
            && p in t.stock
            && UnexplainedTotal(t, p) == UnexplainedTotal(s, p)
            && UnexplainedReserved(t, p) == UnexplainedReserved(s, p)
  {
    var cart := CartOf(s.carts, user);
    var ms := LineMovements(Reserve, cart, |s.orders|);
    SumConcat(s.movements, ms, TotalEffect(p));
    SumConcat(s.movements, ms, ReservedEffect(p));
    LineMovementsEffect(Reserve, cart, |s.orders|, p);
    if !Listed(cart, p) {
      QtyUnlisted(cart, p);
    }
  }

  lemma SupplyBooks(s: Shop, t: Shop, p: ProductId, q: ProductId, kind: MovementKind, delta: int)
    requires p in s.stock && q in s.stock && kind in {Restock, Adjust}
    requires t.stock == s.stock[q := MoveRow(kind, s.stock[q], delta)]
    requires t.movements == s.movements + [Movement(q, kind, delta, None)]
    ensures p in t.stock
    ensures UnexplainedTotal(t, p) == UnexplainedTotal(s, p) && UnexplainedReserved(t, p) == UnexplainedReserved(s, p)
  {
    SumSnoc(s.movements, Movement(q, kind, delta, None), TotalEffect(p));
    SumSnoc(s.movements, Movement(q, kind, delta, None), ReservedEffect(p));
  }

  /** The history explains what happened to the row of `p`, up to the clamps. */
  predicate Explained(s: Shop, e: Event, t: Shop, p: ProductId)
    requires p in s.stock
  {
    && p in t.stock
    && UnexplainedTotal(t, p) == UnexplainedTotal(s, p) + TotalClamp(s, e, p)
    && UnexplainedReserved(t, p) == UnexplainedReserved(s, p) + ReservedClamp(s, e, p)
  }

  lemma CallbackBooks(s: Shop, e: Event, t: Shop, p: ProductId)
    requires WellFormed(s) && p in s.stock && e.Callback? && t == Step(s, e)
    ensures Explained(s, e, t, p)
  {
    CallbackIs(s, e.authority, e.gatewayOk, e.verification, t);
    if Moves(s, e).Some? {
      LineMoveBooks(s, Moves(s, e).value, t, p);
    }
  }

  lemma CancelBooks(s: Shop, e: Event, t: Shop, p: ProductId)
    requires WellFormed(s) && p in s.stock && e.CancelOrder? && t == Step(s, e)
    ensures Explained(s, e, t, p)
  {
    CancelIs(s, e.order, e.user, e.privileged);
    if Moves(s, e).Some? {
      OrderIsStocked(s, e.order);
      LineMoveBooks(s, Moves(s, e).value, t, p);
    }
  }

  lemma UpdateStatusBooks(s: Shop, id: OrderId, to: OrderStatus)
    requires UpdateStatusTx(s, id, to).Some?
    ensures var t := UpdateStatusTx(s, id, to).value;
            t.movements == s.movements && t.stock == s.stock
  {
  }

  lemma QuietBooks(s: Shop, e: Event, p: ProductId)
    requires p in s.stock && !TouchesOrders(e) && !e.RestockProduct? && !e.AdjustProduct?
    ensures var t := Step(s, e);
            t.movements == s.movements && p in t.stock && t.stock[p] == s.stock[p]
  {
  }

  lemma SupplyStepBooks(s: Shop, e: Event, p: ProductId)
    requires p in s.stock && (e.RestockProduct? || e.AdjustProduct?)
    ensures var t := Step(s, e);
            && p in t.stock
            && UnexplainedTotal(t, p) == UnexplainedTotal(s, p)
            && UnexplainedReserved(t, p) == UnexplainedReserved(s, p)
  {
    match e
    case RestockProduct(q, d) =>
      if RestockTx(s, q, d).Some? {
        SupplyBooks(s, RestockTx(s, q, d).value, p, q, Restock, d);
      }
    case AdjustProduct(q, d) =>
      if AdjustTx(s, q, d).Some? {
        SupplyBooks(s, AdjustTx(s, q, d).value, p, q, Adjust, d);
      }
  }

  lemma OrderStepBooks(s: Shop, e: Event, t: Shop, p: ProductId)
    requires WellFormed(s) && p in s.stock && TouchesOrders(e) && t == Step(s, e)
    ensures Explained(s, e, t, p)
  {
    match e
    case Checkout(u) =>
      if CanCheckout(s, u) {
        CheckoutBooks(s, u, p);
      }
    case Callback(_, _, _) => CallbackBooks(s, e, t, p);
    case CancelOrder(_, _, _) => CancelBooks(s, e, t, p);
    case UpdateStatus(id, to) =>
      if UpdateStatusTx(s, id, to).Some? {
        UpdateStatusBooks(s, id, to);
      }
  }

  /** Each step changes a row by what it writes to the history, up to the clamps, whether or not orders are covered. */
  lemma HistoryExplainsStep(s: Shop, e: Event, p: ProductId)
    requires WellFormed(s) && p in s.stock
    ensures Explained(s, e, Step(s, e), p)
  {
    if TouchesOrders(e) {
      OrderStepBooks(s, e, Step(s, e), p);
    } else if e.RestockProduct? || e.AdjustProduct? {
      SupplyStepBooks(s, e, p);
    } else {
      QuietBooks(s, e, p);
    }
  }

  /** While orders are covered, only a cancel of a paid order is clamped. */
  lemma ClampsAreLoose(s: Shop, e: Event, p: ProductId)
    requires WellFormed(s) && Covered(s) && p in s.stock && !LooseMove(s, e)
    ensures TotalClamp(s, e, p) == 0 && ReservedClamp(s, e, p) == 0
  {
    if Moves(s, e).Some? {
      CoveredOrderIsReserved(s, Moves(s, e).value.order, p);
      assert s.stock[p].ChecksHold();
    }
  }

  ghost predicate Tight(s: Shop, events: seq<Event>) {
    events == [] ||
    (Tight(s, events[..|events| - 1]) && !LooseMove(Run(s, events[..|events| - 1]), events[|events| - 1]))
  }

  lemma {:induction false} RunExplained(s: Shop, events: seq<Event>, p: ProductId)
    requires WellFormed(s) && Covered(s) && Tight(s, events) && p in s.stock
    ensures var t := Run(s, events);
            && Covered(t)
            && p in t.stock
            && UnexplainedTotal(t, p) == UnexplainedTotal(s, p)
            && UnexplainedReserved(t, p) == UnexplainedReserved(s, p)
    decreases |events|
  {
    if events != [] {
      var init := events[..|events| - 1];
      RunExplained(s, init, p);
      RunKeepsWellFormed(s, init);
      CoverageKeptIff(Run(s, init), events[|events| - 1]);
      HistoryExplainsStep(Run(s, init), events[|events| - 1], p);
      ClampsAreLoose(Run(s, init), events[|events| - 1], p);
    }
  }

  /**
   * In a run without loose moves every open order stays covered, units on hand plus units sold are
   * initial units plus units supplied, and the history reproduces the reservations.
   */
  lemma StockIsConserved(s: Shop, events: seq<Event>, p: ProductId)
    requires WellFormed(s) && Covered(s) && Tight(s, events) && p in s.stock
    ensures var t := Run(s, events);
            && Covered(t)
            && p in t.stock
            && t.stock[p].total + Sum(t.movements, PurchasedUnits(p)) - Sum(t.movements, SuppliedUnits(p))
                == s.stock[p].total + Sum(s.movements, PurchasedUnits(p)) - Sum(s.movements, SuppliedUnits(p))
            && t.stock[p].reserved - Sum(t.movements, ReservedEffect(p))
                == s.stock[p].reserved - Sum(s.movements, ReservedEffect(p))
  {
    RunExplained(s, events, p);
    TotalEffectSplits(s.movements, p);
    TotalEffectSplits(Run(s, events).movements, p);
  }

  // ---- From the empty shop -----------------------------------------------------------------

  /** Every history row is about a product that has a stock row. */
  ghost predicate MovementsKnown(s: Shop) {
    forall m :: m in s.movements ==> m.product in s.stock
  }

  lemma LinesKnown(kind: MovementKind, stock: map<ProductId, Stock>, lines: seq<Line>, id: OrderId)
    requires Stocked(stock, lines)
    ensures forall m :: m in LineMovements(kind, lines, id) ==> m.product in stock
  {
  }

  lemma MovedLinesKnown(s: Shop, e: Event, t: Shop)
    requires WellFormed(s) && MovementsKnown(s) && (e.Callback? || e.CancelOrder?) && t == Step(s, e)
    ensures MovementsKnown(t)
  {
    if e.Callback? {
      CallbackIs(s, e.authority, e.gatewayOk, e.verification, t);
    } else {
      CancelIs(s, e.order, e.user, e.privileged);
    }
    if Moves(s, e).Some? {
      OrderIsStocked(s, Moves(s, e).value.order);
      LineMoveKnown(s, Moves(s, e).value, t);
    }
  }

  lemma LineMoveKnown(s: Shop, m: LineMove, t: Shop)
    requires WellFormed(s) && MovementsKnown(s) && m.order < |s.orders| && LinesMoved(s, m, t)
    ensures MovementsKnown(t)
  {
    OrderIsStocked(s, m.order);
    LinesKnown(m.kind, s.stock, s.orders[m.order].lines, m.order);
  }

  lemma StepKeepsMovementsKnown(s: Shop, e: Event)
    requires WellFormed(s) && MovementsKnown(s)
    ensures MovementsKnown(Step(s, e))
  {
    if e.Callback? || e.CancelOrder? {
      MovedLinesKnown(s, e, Step(s, e));
    } else if e.Checkout? {
      if CanCheckout(s, e.user) {
        LinesKnown(Reserve, s.stock, CartOf(s.carts, e.user), |s.orders|);
      }
    } else {
      StepKeepsWellFormed(s, e);
    }
  }

  lemma {:induction false} RunKeepsMovementsKnown(events: seq<Event>)
    ensures WellFormed(Run(EMPTY_SHOP, events)) && MovementsKnown(Run(EMPTY_SHOP, events))
    decreases |events|
  {
    EmptyShopWellFormed();
    RunKeepsWellFormed(EMPTY_SHOP, events);
    if events != [] {
      RunKeepsMovementsKnown(events[..|events| - 1]);
      StepKeepsMovementsKnown(Run(EMPTY_SHOP, events[..|events| - 1]), events[|events| - 1]);
    }
  }

  /** The stock that the run's creation of `p` gave it. */
  function InitialStock(events: seq<Event>, p: ProductId): nat {
    if events == [] then 0
    else
      var init, e := events[..|events| - 1], events[|events| - 1];
      if e.CreateProduct? && e.product == p && Transaction(Run(EMPTY_SHOP, init), e).Some? then e.initial
      else InitialStock(init, p)
  }

  /** All that the clamps swallowed in a run, of the total and of the reservations. */
  function TotalClamps(events: seq<Event>, p: ProductId): int {
    if events == [] then 0
    else
      var init, e := events[..|events| - 1], events[|events| - 1];
      var s := Run(EMPTY_SHOP, init);
      TotalClamps(init, p) + if p in s.stock then TotalClamp(s, e, p) else 0
  }

  function ReservedClamps(events: seq<Event>, p: ProductId): int {
    if events == [] then 0
    else
      var init, e := events[..|events| - 1], events[|events| - 1];
      var s := Run(EMPTY_SHOP, init);
      ReservedClamps(init, p) + if p in s.stock then ReservedClamp(s, e, p) else 0
  }

  lemma {:induction false} NothingBeforeCreation(events: seq<Event>, p: ProductId)
    requires p !in Run(EMPTY_SHOP, events).stock
    ensures InitialStock(events, p) == 0 && TotalClamps(events, p) == 0 && ReservedClamps(events, p) == 0
    decreases |events|
  {
    if events != [] {
      var init := events[..|events| - 1];
      EmptyShopWellFormed();
      RunKeepsWellFormed(EMPTY_SHOP, init);
      StepKeepsWellFormed(Run(EMPTY_SHOP, init), events[|events| - 1]);
      NothingBeforeCreation(init, p);
    }
  }

  lemma NewProductIsInitial(s: Shop, e: Event, p: ProductId)
    requires MovementsKnown(s) && p !in s.stock && p in Step(s, e).stock
    ensures e.CreateProduct? && e.product == p && Transaction(s, e).Some?
    ensures UnexplainedTotal(Step(s, e), p) == e.initial && UnexplainedReserved(Step(s, e), p) == 0
  {
    if !e.CreateProduct? {
      OnlyCreateAddsStock(s, e);
    } else {
      SumOfZeros(s.movements, TotalEffect(p));
      SumOfZeros(s.movements, ReservedEffect(p));
    }
  }

  /** In every run from an empty shop a row is its initial stock, its history, and what the clamps swallowed. */
  lemma {:induction false} HistoryExplainsRun(events: seq<Event>, p: ProductId)
    requires p in Run(EMPTY_SHOP, events).stock
    ensures var t := Run(EMPTY_SHOP, events);
            && t.stock[p].total
                 == InitialStock(events, p) + Sum(t.movements, TotalEffect(p)) + TotalClamps(events, p)
            && t.stock[p].reserved == Sum(t.movements, ReservedEffect(p)) + ReservedClamps(events, p)
    decreases |events|
  {
    var init, e := events[..|events| - 1], events[|events| - 1];
    var s := Run(EMPTY_SHOP, init);
    RunKeepsMovementsKnown(init);
    if p in s.stock {
      HistoryExplainsRun(init, p);
      HistoryExplainsStep(s, e, p);
    } else {
      NewProductIsInitial(s, e, p);
      NothingBeforeCreation(init, p);
    }
  }

  lemma {:induction false} TightRunsAreUnclamped(events: seq<Event>, p: ProductId)
    requires Tight(EMPTY_SHOP, events)
    ensures Covered(Run(EMPTY_SHOP, events))
    ensures TotalClamps(events, p) == 0 && ReservedClamps(events, p) == 0
    decreases |events|
  {
    if events != [] {
      var init, e := events[..|events| - 1], events[|events| - 1];
      var s := Run(EMPTY_SHOP, init);
      TightRunsAreUnclamped(init, p);
      RunKeepsMovementsKnown(init);
      CoverageKeptIff(s, e);
      if p in s.stock {
        ClampsAreLoose(s, e, p);
      }
    }
  }

  /**
   * In every run from an empty shop without loose moves: on hand plus sold is initial plus supplied, the
   * history is the reservations, and they cover the open demand.
   */
  lemma StockFromCreation(events: seq<Event>, p: ProductId)
    requires Tight(EMPTY_SHOP, events) && p in Run(EMPTY_SHOP, events).stock
    ensures var t := Run(EMPTY_SHOP, events);
            && t.stock[p].total + Sum(t.movements, PurchasedUnits(p))
                 == InitialStock(events, p) + Sum(t.movements, SuppliedUnits(p))
            && OpenDemand(t.orders, p) <= t.stock[p].reserved == Sum(t.movements, ReservedEffect(p))
  {
    var t := Run(EMPTY_SHOP, events);
    HistoryExplainsRun(events, p);
    TightRunsAreUnclamped(events, p);
    TotalEffectSplits(t.movements, p);
    assert 0 <= Slack(t, p);
  }
}
