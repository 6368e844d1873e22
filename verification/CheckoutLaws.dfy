/** What checkout promises: it looks at the cart as a whole, and takes and charges exactly what is in it. */
module CheckoutLaws {
  import opened Prelude
  import opened Sums
  import opened OrderGraph
  import opened Shop
  import opened StockMoves
  import opened StockLaws

  /** A line of the cart summary; products off sale are skipped. */
  function SummaryAmount(products: map<ProductId, Product>): Line -> int {
    (l: Line) => if OnSale(products, l.product) then UnitPrice(products[l.product]) * l.quantity else 0
  }

  /** The total the cart page shows. */
  function SummaryTotal(products: map<ProductId, Product>, cart: seq<Line>): int {
    Sum(cart, SummaryAmount(products))
  }

  /** The lines the cart page shows. */
  function ShownLines(products: map<ProductId, Product>, cart: seq<Line>): seq<Line> {
    if cart == [] then []
    else
      var last := cart[|cart| - 1];
      ShownLines(products, cart[..|cart| - 1]) + if OnSale(products, last.product) then [last] else []
  }

  lemma ShownSnoc(products: map<ProductId, Product>, cart: seq<Line>, l: Line)
    ensures ShownLines(products, cart + [l]) == ShownLines(products, cart) + if OnSale(products, l.product) then [l] else []
  {
    assert (cart + [l])[..|cart|] == cart;
  }

  /** One row of the cart page. */
  datatype SummaryItem = SummaryItem(line: Line, unitPrice: nat, subtotal: nat, available: int)

  function Subtotal(): SummaryItem -> int {
    (item: SummaryItem) => item.subtotal
  }

  /** What the cart page shows, line by line. */
  function SummaryItems(products: map<ProductId, Product>, stock: map<ProductId, Stock>, cart: seq<Line>): (items: seq<SummaryItem>)
    ensures |items| == |ShownLines(products, cart)|
  {
    if cart == [] then []
    else
      var last := cart[|cart| - 1];
      SummaryItems(products, stock, cart[..|cart| - 1]) +
      if OnSale(products, last.product) then
        var price := UnitPrice(products[last.product]);
        [SummaryItem(last, price, price * last.quantity, AvailableStock(stock, last.product))]
      else []
  }

  lemma ItemsSnoc(products: map<ProductId, Product>, stock: map<ProductId, Stock>, cart: seq<Line>, l: Line)
    ensures OnSale(products, l.product) ==>
      var price := UnitPrice(products[l.product]);
      SummaryItems(products, stock, cart + [l])
        == SummaryItems(products, stock, cart) + [SummaryItem(l, price, price * l.quantity, AvailableStock(stock, l.product))]
    ensures !OnSale(products, l.product) ==> SummaryItems(products, stock, cart + [l]) == SummaryItems(products, stock, cart)
  {
    assert (cart + [l])[..|cart|] == cart;
  }

  /** A row of the page: an active product, at its discount or else its list price, with what is available. */
  predicate ItemIs(products: map<ProductId, Product>, stock: map<ProductId, Stock>, item: SummaryItem, line: Line) {
    && item.line == line && line.product in products && products[line.product].active
    && item.unitPrice == (match products[line.product].discount case Some(d) => d case None => products[line.product].price)
    && item.subtotal == item.unitPrice * line.quantity
    && item.available == if line.product in stock then Max(0, stock[line.product].total - stock[line.product].reserved) else 0
  }

  lemma {:induction false} SummaryItemsAre(products: map<ProductId, Product>, stock: map<ProductId, Stock>, cart: seq<Line>)
    ensures var items, shown := SummaryItems(products, stock, cart), ShownLines(products, cart);
            forall i :: 0 <= i < |items| ==> ItemIs(products, stock, items[i], shown[i])
    decreases |cart|
  {
    if cart != [] {
      var init, last := cart[..|cart| - 1], cart[|cart| - 1];
      SummaryItemsAre(products, stock, init);
      assert cart == init + [last];
      ItemsSnoc(products, stock, init, last);
      ShownSnoc(products, init, last);
      var items, shown := SummaryItems(products, stock, cart), ShownLines(products, cart);
      var n := |SummaryItems(products, stock, init)|;
      forall i | 0 <= i < |items| ensures ItemIs(products, stock, items[i], shown[i]) {
        if i < n {
          assert items[i] == SummaryItems(products, stock, init)[i] && shown[i] == ShownLines(products, init)[i];
        }
      }
    }
  }

  /** The subtotals of the page add up to its total. */
  lemma {:induction false} SubtotalsAddUp(products: map<ProductId, Product>, stock: map<ProductId, Stock>, cart: seq<Line>)
    ensures Sum(SummaryItems(products, stock, cart), Subtotal()) == SummaryTotal(products, cart)
    decreases |cart|
  {
    if cart != [] {
      var init, last := cart[..|cart| - 1], cart[|cart| - 1];
      SubtotalsAddUp(products, stock, init);
      assert cart == init + [last];
      ItemsSnoc(products, stock, init, last);
      SumSnoc(init, last, SummaryAmount(products));
      if OnSale(products, last.product) {
        var items := SummaryItems(products, stock, init);
        var price := UnitPrice(products[last.product]);
        SumSnoc(items, SummaryItem(last, price, price * last.quantity, AvailableStock(stock, last.product)), Subtotal());
      }
    }
  }

  /** The page shows each line of an active product as often as the cart has it, and no other. */
  lemma {:induction false} ShownIffActive(products: map<ProductId, Product>, cart: seq<Line>, l: Line)
    ensures multiset(ShownLines(products, cart))[l]
         == if l.product in products && products[l.product].active then multiset(cart)[l] else 0
    decreases |cart|
  {
    if cart != [] {
      var init, last := cart[..|cart| - 1], cart[|cart| - 1];
      ShownIffActive(products, init, l);
      assert cart == init + [last];
      ShownSnoc(products, init, last);
    }
  }

  /** The total of the page is the sum of what it shows, and it shows the cart exactly if all of it is on sale. */
  lemma {:induction false} SummaryShowsWhatItAdds(products: map<ProductId, Product>, cart: seq<Line>)
    ensures SummaryTotal(products, cart) == SummaryTotal(products, ShownLines(products, cart))
    ensures |ShownLines(products, cart)| <= |cart|
    ensures ShownLines(products, cart) == cart <==> forall i :: 0 <= i < |cart| ==> OnSale(products, cart[i].product)
    decreases |cart|
  {
    if cart != [] {
      var init, last := cart[..|cart| - 1], cart[|cart| - 1];
      SummaryShowsWhatItAdds(products, init);
      assert cart == init + [last];
      assert forall i :: 0 <= i < |init| ==> init[i] == cart[i];
      var shown := ShownLines(products, init);
      SumSnoc(shown, last, SummaryAmount(products));
      assert ShownLines(products, cart) == if OnSale(products, last.product) then shown + [last] else shown;
    }
  }

  lemma {:induction false} OrderTotalIsSummary(products: map<ProductId, Product>, cart: seq<Line>)
    requires forall i :: 0 <= i < |cart| ==> OnSale(products, cart[i].product)
    ensures LinesTotal(cart, CurrentPrices(products, cart)) == SummaryTotal(products, cart)
    decreases |cart|
  {
    if cart != [] {
      var last := |cart| - 1;
      assert CurrentPrices(products, cart)[..last] == CurrentPrices(products, cart[..last]);
      assert forall i :: 0 <= i < last ==> cart[..last][i] == cart[i];
      OrderTotalIsSummary(products, cart[..last]);
    }
  }

  /** With one line a product, checkout goes through iff each line is on sale and available by itself. */
  lemma CheckoutIffEachLineAvailable(s: Shop, user: UserId)
    requires CartOk(CartOf(s.carts, user))
    ensures var cart := CartOf(s.carts, user);
            CheckoutTx(s, user).Some? <==>
              && cart != []
              && forall i :: 0 <= i < |cart| ==>
                   var p := cart[i].product;
                   && p in s.products && s.products[p].active
                   && p in s.stock && cart[i].quantity <= s.stock[p].total - s.stock[p].reserved
  {
    var cart := CartOf(s.carts, user);
    forall i | 0 <= i < |cart| ensures Qty(cart, cart[i].product) == cart[i].quantity {
      QtyOfDistinctLine(cart, i);
    }
  }

  /** What a successful checkout leaves behind, line by line. */
  lemma CheckoutEffect(s: Shop, user: UserId)
    requires CartOk(CartOf(s.carts, user)) && CheckoutTx(s, user).Some?
    ensures var cart, t := CartOf(s.carts, user), CheckoutTx(s, user).value;
            && CartOf(t.carts, user) == []
            && |t.orders| == |s.orders| + 1 && t.orders[..|s.orders|] == s.orders
            && (forall i :: 0 <= i < |cart| ==>
                  t.stock[cart[i].product]
                    == s.stock[cart[i].product].(reserved := s.stock[cart[i].product].reserved + cart[i].quantity))
            && t.stock.Keys == s.stock.Keys
            && (forall p :: p in s.stock && !Listed(cart, p) ==> t.stock[p] == s.stock[p])
            && var o := t.orders[|s.orders|];
               && o.status == AwaitingPayment && o.user == user && o.lines == cart
               && o.total == LinesTotal(o.lines, o.unitPrices) == SummaryTotal(s.products, cart)
  {
    var cart := CartOf(s.carts, user);
    forall i | 0 <= i < |cart| ensures Qty(cart, cart[i].product) == cart[i].quantity && Listed(cart, cart[i].product) {
      QtyOfDistinctLine(cart, i);
    }
    OrderTotalIsSummary(s.products, cart);
  }

  /** Each line is charged its product's discount, or its list price if there is none; the total is all of that. */
  lemma CheckoutCharges(s: Shop, user: UserId)
    requires CheckoutTx(s, user).Some?
    ensures var cart, o := CartOf(s.carts, user), CheckoutTx(s, user).value.orders[|s.orders|];
            && o.lines == cart && |o.unitPrices| == |cart|
            && (forall i :: 0 <= i < |cart| ==>
                  && cart[i].product in s.products
                  && o.unitPrices[i] == match s.products[cart[i].product].discount
                                        case Some(d) => d
                                        case None => s.products[cart[i].product].price)
            && o.total == Sum(cart, ChargeOf(s.products))
  {
    ChargesAddUp(s.products, CartOf(s.carts, user));
  }

  /** What a line costs as the products stand. */
  function ChargeOf(products: map<ProductId, Product>): Line -> int {
    (l: Line) =>
      if l.product !in products then 0
      else match products[l.product].discount
        case Some(d) => d * l.quantity
        case None => products[l.product].price * l.quantity
  }

  lemma {:induction false} ChargesAddUp(products: map<ProductId, Product>, lines: seq<Line>)
    ensures LinesTotal(lines, CurrentPrices(products, lines)) == Sum(lines, ChargeOf(products))
    decreases |lines|
  {
    if lines != [] {
      var last := |lines| - 1;
      assert CurrentPrices(products, lines)[..last] == CurrentPrices(products, lines[..last]);
      ChargesAddUp(products, lines[..last]);
    }
  }

  /** An item goes into the cart exactly if its quantity is allowed, it is active, and there is enough of it. */
  lemma AddItemGoesIff(s: Shop, user: UserId, p: ProductId, quantity: nat)
    requires CartOk(CartOf(s.carts, user))
    ensures AddItemTx(s, user, p, quantity).Some? <==>
              && 1 <= quantity <= 99
              && p in s.products && s.products[p].active
              && p in s.stock && Qty(CartOf(s.carts, user), p) + quantity <= s.stock[p].total - s.stock[p].reserved
  {
    QtyOfFound(CartOf(s.carts, user), p);
  }

  /** A quantity is set exactly if it is allowed, its product exists and is in the cart, and there is enough of it. */
  lemma UpdateItemGoesIff(s: Shop, user: UserId, p: ProductId, quantity: nat)
    requires CartOk(CartOf(s.carts, user))
    ensures UpdateItemTx(s, user, p, quantity).Some? <==>
              && 1 <= quantity <= 99
              && p in s.products && Listed(CartOf(s.carts, user), p)
              && p in s.stock && quantity <= s.stock[p].total - s.stock[p].reserved
  {
  }

  lemma QtyOfFound(cart: seq<Line>, p: ProductId)
    requires CartOk(cart)
    ensures Qty(cart, p) == match FindLine(cart, p) case Some(i) => cart[i].quantity case None => 0
  {
    match FindLine(cart, p)
    case Some(i) => QtyOfDistinctLine(cart, i);
    case None => QtyUnlisted(cart, p);
  }

  lemma QtyOfFoundIfOk(cart: seq<Line>, p: ProductId)
    ensures CartOk(cart) ==> Qty(cart, p) == match FindLine(cart, p) case Some(i) => cart[i].quantity case None => 0
  {
    if CartOk(cart) {
      QtyOfFound(cart, p);
    }
  }

  /** The outcome does not depend on the order in which the cart lists its lines. */
  lemma CheckoutIgnoresLineOrder(s: Shop, user: UserId, other: seq<Line>)
    requires multiset(other) == multiset(CartOf(s.carts, user))
    ensures var s' := s.(carts := s.carts[user := other]);
            && (CheckoutTx(s', user).Some? <==> CheckoutTx(s, user).Some?)
            && (CheckoutTx(s, user).Some? ==>
                  var t, t' := CheckoutTx(s, user).value, CheckoutTx(s', user).value;
                  t'.stock == t.stock && t'.orders[|s.orders|].total == t.orders[|s.orders|].total)
  {
    var cart := CartOf(s.carts, user);
    var s' := s.(carts := s.carts[user := other]);
    SameLinesCheckout(s, s', user);
    SameLinesCheckout(s', s, user);
    if CanCheckout(s, user) {
      SameMoves(Reserve, s.stock, cart, other);
      SameTotal(s.products, cart, other);
    }
  }

  lemma SameMoves(kind: MovementKind, stock: map<ProductId, Stock>, cart: seq<Line>, other: seq<Line>)
    requires multiset(other) == multiset(cart)
    ensures MoveLines(kind, stock, other) == MoveLines(kind, stock, cart)
  {
    forall p ensures Qty(cart, p) == Qty(other, p) && (Listed(cart, p) <==> Listed(other, p)) {
      QtyPermutation(cart, other, p);
    }
  }

  lemma SameTotal(products: map<ProductId, Product>, cart: seq<Line>, other: seq<Line>)
    requires multiset(other) == multiset(cart)
    requires forall i :: 0 <= i < |cart| ==> OnSale(products, cart[i].product)
    requires forall i :: 0 <= i < |other| ==> OnSale(products, other[i].product)
    ensures LinesTotal(other, CurrentPrices(products, other)) == LinesTotal(cart, CurrentPrices(products, cart))
  {
    OrderTotalIsSummary(products, cart);
    OrderTotalIsSummary(products, other);
    SumPermutation(cart, other, SummaryAmount(products));
  }

  lemma SameLinesCheckout(s: Shop, s': Shop, user: UserId)
    requires s'.products == s.products && s'.stock == s.stock
    requires multiset(CartOf(s'.carts, user)) == multiset(CartOf(s.carts, user))
    ensures CanCheckout(s, user) ==> CanCheckout(s', user)
  {
    var cart, other := CartOf(s.carts, user), CartOf(s'.carts, user);
    if CanCheckout(s, user) {
      assert |other| == |multiset(other)| == |multiset(cart)| == |cart|;
      forall i | 0 <= i < |other|
        ensures OnSale(s.products, other[i].product) && other[i].product in s.stock
        ensures Qty(other, other[i].product) <= s.stock[other[i].product].Available()
      {
        assert other[i] in multiset(cart);
        var j :| 0 <= j < |cart| && cart[j] == other[i];
        QtyPermutation(cart, other, other[i].product);
      }
    }
  }

  /** Adding to the cart raises the demand for that product by exactly the quantity, within what is available. */
  lemma AddItemAddsQuantity(s: Shop, user: UserId, p: ProductId, quantity: nat, q: ProductId)
    requires CartOk(CartOf(s.carts, user)) && AddItemTx(s, user, p, quantity).Some?
    ensures var before, after := CartOf(s.carts, user), CartOf(AddItemTx(s, user, p, quantity).value.carts, user);
            && CartOk(after)
            && Qty(after, q) == Qty(before, q) + (if q == p then quantity else 0)
            && Qty(after, p) <= AvailableStock(s.stock, p)
  {
    var cart := CartOf(s.carts, user);
    var found := FindLine(cart, p);
    var wanted := quantity + if found.Some? then cart[found.value].quantity else 0;
    PutLineKeepsCart(cart, Line(p, wanted));
    if found.Some? {
      SumUpdate(cart, found.value, Line(p, wanted), QuantityOf(q));
      SumUpdate(cart, found.value, Line(p, wanted), QuantityOf(p));
      QtyOfDistinctLine(cart, found.value);
    } else {
      SumSnoc(cart, Line(p, wanted), QuantityOf(q));
      SumSnoc(cart, Line(p, wanted), QuantityOf(p));
      QtyUnlisted(cart, p);
    }
  }

  /** Setting a quantity replaces the demand for that product, within what is available, and no other. */
  lemma UpdateItemSetsQuantity(s: Shop, user: UserId, p: ProductId, quantity: nat, q: ProductId)
    requires CartOk(CartOf(s.carts, user)) && UpdateItemTx(s, user, p, quantity).Some?
    ensures var before, after := CartOf(s.carts, user), CartOf(UpdateItemTx(s, user, p, quantity).value.carts, user);
            && CartOk(after)
            && Qty(after, q) == (if q == p then quantity else Qty(before, q))
            && Qty(after, p) <= AvailableStock(s.stock, p)
  {
    var cart := CartOf(s.carts, user);
    var found := FindLine(cart, p).value;
    PutLineKeepsCart(cart, Line(p, quantity));
    SumUpdate(cart, found, Line(p, quantity), QuantityOf(q));
    SumUpdate(cart, found, Line(p, quantity), QuantityOf(p));
    QtyOfDistinctLine(cart, found);
  }

  /** Removing an item removes the demand for that product and no other. */
  lemma RemoveItemRemovesQuantity(cart: seq<Line>, p: ProductId, q: ProductId)
    requires CartOk(cart)
    ensures CartOk(DropLine(cart, p))
    ensures Qty(DropLine(cart, p), q) == if q == p then 0 else Qty(cart, q)
  {
    DropLineKeepsCart(cart, p);
    var found := FindLine(cart, p);
    if found.Some? {
      SumWithout(cart, found.value, QuantityOf(q));
      QtyOfDistinctLine(cart, found.value);
    } else {
      QtyUnlisted(cart, p);
    }
  }

  // ---- The loop of checkout ----------------------------------------------------------------

  /** The row inserted before the loop. */
  function NewOrder(user: UserId): Order {
    Order(user, Pending, [], [], 0, [], false)
  }

  /** The tables when the loop has reserved the first `i` lines. */
  ghost function AtLine(start: Shop, user: UserId, cart: seq<Line>, i: nat): Shop
    requires i <= |cart|
  {
    start.(stock := MoveLines(Reserve, start.stock, cart[..i]),
           movements := start.movements + LineMovements(Reserve, cart[..i], |start.orders|),
           orders := start.orders + [NewOrder(user)])
  }

  /** The first `i` lines alone could be checked out. */
  ghost predicate Fits(start: Shop, cart: seq<Line>, i: nat)
    requires i <= |cart|
  {
    forall j :: 0 <= j < i ==>
      && OnSale(start.products, cart[j].product)
      && cart[j].product in start.stock
      && Qty(cart[..i], cart[j].product) <= start.stock[cart[j].product].Available()
  }

  lemma CheckoutStarts(start: Shop, user: UserId, cart: seq<Line>)
    ensures AtLine(start, user, cart, 0) == start.(orders := start.orders + [NewOrder(user)])
    ensures Fits(start, cart, 0)
  {
    NothingMoves(Reserve, start.stock);
    assert cart[..0] == [];
    assert start.movements + LineMovements(Reserve, [], |start.orders|) == start.movements;
  }

  lemma QtyOfNext(cart: seq<Line>, i: nat, p: ProductId)
    requires i < |cart|
    ensures Qty(cart[..i + 1], p) == Qty(cart[..i], p) + (if p == cart[i].product then cart[i].quantity else 0) <= Qty(cart, p)
    ensures p == cart[i].product && !Listed(cart[..i], p) ==> Qty(cart[..i], p) == 0
  {
    assert cart[..i + 1] == cart[..i] + [cart[i]];
    assert cart == cart[..i + 1] + cart[i + 1..];
    SumSnoc(cart[..i], cart[i], QuantityOf(p));
    SumConcat(cart[..i + 1], cart[i + 1..], QuantityOf(p));
    QtyBounds(cart[i + 1..], p);
    if !Listed(cart[..i], p) {
      QtyUnlisted(cart[..i], p);
    }
  }

  /** The next line passes its checks iff one more line fits, and then moves the tables one line on. */
  lemma NextLine(start: Shop, user: UserId, cart: seq<Line>, i: nat)
    requires i < |cart| && Fits(start, cart, i)
    ensures var now, p, q := AtLine(start, user, cart, i), cart[i].product, cart[i].quantity;
            var passes := OnSale(start.products, p) && p in now.stock && q <= now.stock[p].Available();
            && now.stock.Keys == start.stock.Keys
            && (passes ==> Fits(start, cart, i + 1))
            && (!passes ==> cart == CartOf(start.carts, user) ==> !CanCheckout(start, user))
            && (p in now.stock ==>
                  AtLine(start, user, cart, i + 1) == now.(
                    stock := now.stock[p := now.stock[p].(reserved := now.stock[p].reserved + q)],
                    movements := now.movements + [Movement(p, Reserve, q, Some(|start.orders|))]))
  {
    var now, p := AtLine(start, user, cart, i), cart[i].product;
    assert cart[..i + 1] == cart[..i] + [cart[i]];
    LineMovementsSnoc(Reserve, cart[..i], cart[i], |start.orders|);
    QtyOfNext(cart, i, p);
    if p in start.stock {
      MoveLinesSnoc(Reserve, start.stock, cart[..i], cart[i]);
      assert now.stock[p].Available() == start.stock[p].Available() - Qty(cart[..i], p);
    }
    if OnSale(start.products, p) && p in now.stock && cart[i].quantity <= now.stock[p].Available() {
      forall j | 0 <= j < i + 1
        ensures Qty(cart[..i + 1], cart[j].product) <= start.stock[cart[j].product].Available()
      {
        QtyOfNext(cart, i, cart[j].product);
      }
    }
  }

  /** The items, prices and subtotal accumulated for the first `i` lines. */
  ghost predicate Priced(products: map<ProductId, Product>, cart: seq<Line>, i: nat, lines: seq<Line>, prices: seq<nat>, subtotal: nat)
    requires i <= |cart|
  {
    lines == cart[..i] && prices == CurrentPrices(products, lines) && subtotal == LinesTotal(lines, prices)
  }

  lemma NextPrice(products: map<ProductId, Product>, cart: seq<Line>, i: nat, lines: seq<Line>, prices: seq<nat>, subtotal: nat)
    requires i < |cart| && cart[i].product in products && Priced(products, cart, i, lines, prices, subtotal)
    ensures var unitPrice := UnitPrice(products[cart[i].product]);
            Priced(products, cart, i + 1, lines + [cart[i]], prices + [unitPrice], subtotal + unitPrice * cart[i].quantity)
  {
    var lines', prices' := lines + [cart[i]], prices + [UnitPrice(products[cart[i].product])];
    assert lines' == cart[..i + 1] && lines'[..i] == lines && prices'[..i] == prices;
    assert prices' == CurrentPrices(products, lines');
  }

  lemma CheckoutEnds(start: Shop, user: UserId, cart: seq<Line>)
    requires cart == CartOf(start.carts, user) && cart != [] && Fits(start, cart, |cart|)
    ensures CanCheckout(start, user)
    ensures cart[..|cart|] == cart
    ensures var done := AtLine(start, user, cart, |cart|);
            CheckoutTx(start, user).value == done.(
              orders := start.orders + [PlacedOrder(start.products, user, cart)],
              carts := start.carts[user := []])
  {
    assert cart[..|cart|] == cart;
  }
}
