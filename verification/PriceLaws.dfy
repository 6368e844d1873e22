/** Products and prices over every run of the shop. */
module PriceLaws {
  import opened Prelude
  import opened Sums
  import opened Shop
  import opened MoneyLaws
  import opened CheckoutLaws

  // ---- Products ----------------------------------------------------------------------------

  /** What the last committed request for product `p` wrote. */
  function LastWritten(events: seq<Event>, p: ProductId): Option<Product> {
    if events == [] then None
    else
      var init, e := events[..|events| - 1], events[|events| - 1];
      if Transaction(Run(EMPTY_SHOP, init), e).Some? && e.CreateProduct? && e.product == p then Some(e.fields)
      else if Transaction(Run(EMPTY_SHOP, init), e).Some? && e.UpdateProduct? && e.product == p then Some(e.fields)
      else LastWritten(init, p)
  }

  lemma OthersKeepProducts(s: Shop, e: Event)
    requires !e.CreateProduct? && !e.UpdateProduct?
    ensures Step(s, e).products == s.products
  {
    match e
    case Callback(a, ok, v) => assert CallbackTx(s, a, ok, v).Some? ==> CallbackTx(s, a, ok, v).value.products == s.products;
    case CancelOrder(id, u, priv) => assert CancelTx(s, id, u, priv).Some? ==> CancelTx(s, id, u, priv).value.products == s.products;
    case UpdateStatus(id, to) => assert UpdateStatusTx(s, id, to).Some? ==> UpdateStatusTx(s, id, to).value.products == s.products;
    case _ =>
  }

  /** In every run a product is what was last written, and its discount, if any, is below its price. */
  lemma {:induction false} ProductsAreLastWritten(events: seq<Event>, p: ProductId)
    ensures var products := Run(EMPTY_SHOP, events).products;
            && LastWritten(events, p) == (if p in products then Some(products[p]) else None)
            && (p in products ==> 0 < products[p].price)
            && (p in products && products[p].discount.Some? ==> products[p].discount.value < products[p].price)
    decreases |events|
  {
    if events != [] {
      var init, e := events[..|events| - 1], events[|events| - 1];
      ProductsAreLastWritten(init, p);
      if !e.CreateProduct? && !e.UpdateProduct? {
        OthersKeepProducts(Run(EMPTY_SHOP, init), e);
      }
    }
  }

  /** A product is written exactly if it is new, or known, and its prices are allowed. */
  lemma ProductGoesIff(s: Shop, p: ProductId, fields: Product, initial: nat)
    ensures var allowed := 0 < fields.price && (fields.discount.Some? ==> fields.discount.value < fields.price);
            && (Transaction(s, CreateProduct(p, fields, initial)).Some? <==> p !in s.products && p !in s.stock && allowed)
            && (Transaction(s, UpdateProduct(p, fields)).Some? <==> p in s.products && allowed)
  {
  }

  // ---- Orders ------------------------------------------------------------------------------

  /** Order `id` was placed by event `at`, and is charged what the products cost then. */
  predicate PlacedAt(events: seq<Event>, at: nat, id: OrderId, o: Order)
    requires at < |events|
  {
    var s := Run(EMPTY_SHOP, events[..at]);
    && events[at] == Checkout(o.user) && |s.orders| == id
    && o.lines == CartOf(s.carts, o.user) && o.total == Sum(o.lines, ChargeOf(s.products))
    && |o.unitPrices| == |o.lines|
    && forall i :: 0 <= i < |o.lines| ==>
         && o.lines[i].product in s.products
         && o.unitPrices[i] == match s.products[o.lines[i].product].discount
                               case Some(d) => d
                               case None => s.products[o.lines[i].product].price
  }

  lemma PlacedStays(events: seq<Event>, at: nat, id: OrderId, o: Order, o': Order)
    requires events != [] && at < |events| - 1 && PlacedAt(events[..|events| - 1], at, id, o) && SameSale(o, o')
    ensures PlacedAt(events, at, id, o')
  {
    assert events[..|events| - 1][..at] == events[..at];
  }

  lemma SaleStays(s: Shop, e: Event, t: Shop, id: OrderId)
    requires id < |s.orders| && t == Step(s, e)
    ensures id < |t.orders| && SameSale(s.orders[id], t.orders[id])
  {
    OrdersEvolve(s, e);
    assert OrderAdvances(s.orders[id], t.orders[id]);
  }

  lemma JustPlaced(events: seq<Event>, id: OrderId)
    requires events != []
    requires |Run(EMPTY_SHOP, events[..|events| - 1]).orders| <= id < |Run(EMPTY_SHOP, events).orders|
    ensures PlacedAt(events, |events| - 1, id, Run(EMPTY_SHOP, events).orders[id])
  {
    var s, e := Run(EMPTY_SHOP, events[..|events| - 1]), events[|events| - 1];
    OrdersEvolve(s, e);
    CheckoutCharges(s, e.user);
  }

  /** In every run an order's prices and total are those of its products at its checkout, whatever happens to them later. */
  lemma {:induction false} OrdersAreChargedAtCheckout(events: seq<Event>, id: OrderId) returns (at: nat)
    requires id < |Run(EMPTY_SHOP, events).orders|
    ensures at < |events| && PlacedAt(events, at, id, Run(EMPTY_SHOP, events).orders[id])
    decreases |events|
  {
    var init, e := events[..|events| - 1], events[|events| - 1];
    var s := Run(EMPTY_SHOP, init);
    if id < |s.orders| {
      at := OrdersAreChargedAtCheckout(init, id);
      SaleStays(s, e, Run(EMPTY_SHOP, events), id);
      PlacedStays(events, at, id, s.orders[id], Run(EMPTY_SHOP, events).orders[id]);
    } else {
      at := |events| - 1;
      JustPlaced(events, id);
    }
  }
}
