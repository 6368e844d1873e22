/** Carts over every run of the shop: each holds what its owner put in since it was last emptied. */
module CartLaws {
  import opened Prelude
  import opened Shop
  import opened StockLaws
  import opened CheckoutLaws

  /** How many units of `p` the committed requests of `u` left in the cart. */
  function CartDemand(events: seq<Event>, u: UserId, p: ProductId): int {
    if events == [] then 0
    else
      var init := events[..|events| - 1];
      NextDemand(Run(EMPTY_SHOP, init), events[|events| - 1], u, p, CartDemand(init, u, p))
  }

  function NextDemand(s: Shop, e: Event, u: UserId, p: ProductId, demand: int): int {
    if Transaction(s, e).None? then demand
    else match e
      case AddItem(v, q, n) => if v == u && q == p then demand + n else demand
      case UpdateItem(v, q, n) => if v == u && q == p then n else demand
      case RemoveItem(v, q) => if v == u && q == p then 0 else demand
      case ClearCart(v) => if v == u then 0 else demand
      case Checkout(v) => if v == u then 0 else demand
      case _ => demand
  }

  /** Requests that change a cart. */
  predicate TouchesCarts(e: Event) {
    e.AddItem? || e.UpdateItem? || e.RemoveItem? || e.ClearCart? || e.Checkout?
  }

  lemma QuietCarts(s: Shop, e: Event, u: UserId)
    requires !TouchesCarts(e)
    ensures CartOf(Step(s, e).carts, u) == CartOf(s.carts, u)
  {
    match e
    case Callback(a, ok, v) => assert CallbackTx(s, a, ok, v).Some? ==> CallbackTx(s, a, ok, v).value.carts == s.carts;
    case CancelOrder(id, v, priv) => assert CancelTx(s, id, v, priv).Some? ==> CancelTx(s, id, v, priv).value.carts == s.carts;
    case UpdateStatus(id, to) => assert UpdateStatusTx(s, id, to).Some? ==> UpdateStatusTx(s, id, to).value.carts == s.carts;
    case _ =>
  }

  lemma OtherCarts(s: Shop, e: Event, u: UserId)
    requires TouchesCarts(e) && e.user != u
    ensures CartOf(Step(s, e).carts, u) == CartOf(s.carts, u)
  {
  }

  lemma OwnCart(s: Shop, e: Event, t: Shop, p: ProductId)
    requires TouchesCarts(e) && Transaction(s, e) == Some(t) && CartOk(CartOf(s.carts, e.user))
    ensures Qty(CartOf(t.carts, e.user), p) == NextDemand(s, e, e.user, p, Qty(CartOf(s.carts, e.user), p))
  {
    match e
    case AddItem(u, q, n) => AddItemAddsQuantity(s, u, q, n, p);
    case UpdateItem(u, q, n) => UpdateItemSetsQuantity(s, u, q, n, p);
    case RemoveItem(u, q) => RemoveItemRemovesQuantity(CartOf(s.carts, u), q, p);
    case ClearCart(u) =>
    case Checkout(u) =>
  }

  lemma CartIsOk(s: Shop, u: UserId)
    requires WellFormed(s)
    ensures CartOk(CartOf(s.carts, u))
  {
  }

  /** In every run from an empty shop, for every cart and product. */
  lemma {:induction false} CartsHoldWhatWasPutIn(events: seq<Event>, u: UserId, p: ProductId)
    ensures Qty(CartOf(Run(EMPTY_SHOP, events).carts, u), p) == CartDemand(events, u, p)
    decreases |events|
  {
    if events != [] {
      var init, e := events[..|events| - 1], events[|events| - 1];
      var s := Run(EMPTY_SHOP, init);
      CartsHoldWhatWasPutIn(init, u, p);
      EmptyShopWellFormed();
      RunKeepsWellFormed(EMPTY_SHOP, init);
      CartIsOk(s, u);
      if !TouchesCarts(e) {
        QuietCarts(s, e, u);
      } else if e.user != u {
        OtherCarts(s, e, u);
      } else if Transaction(s, e).Some? {
        OwnCart(s, e, Step(s, e), p);
      }
    }
  }
}
