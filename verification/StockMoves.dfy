/** How the closed form of a stock movement relates to its lines, and to sums over orders and history. */
module StockMoves {
  import opened Prelude
  import opened Sums
  import opened Shop

  lemma QtyBounds(lines: seq<Line>, p: ProductId)
    ensures 0 <= Qty(lines, p)
    ensures forall i :: 0 <= i < |lines| && lines[i].product == p ==> lines[i].quantity <= Qty(lines, p)
  {
    SumCoversTerm(lines, QuantityOf(p));
    forall i | 0 <= i < |lines| && lines[i].product == p ensures lines[i].quantity <= Qty(lines, p) {
      assert QuantityOf(p)(lines[i]) == lines[i].quantity;
    }
  }

  lemma {:induction false} QtyUnlisted(lines: seq<Line>, p: ProductId)
    requires !Listed(lines, p)
    ensures Qty(lines, p) == 0
    decreases |lines|
  {
    if lines != [] {
      var init := lines[..|lines| - 1];
      assert forall i :: 0 <= i < |init| ==> init[i] == lines[i];
      QtyUnlisted(init, p);
      assert lines[|lines| - 1].product != p;
    }
  }

  /** With one line a product, a product's demand is its line. */
  lemma {:induction false} QtyOfDistinctLine(lines: seq<Line>, i: nat)
    requires DistinctProducts(lines) && i < |lines|
    ensures Qty(lines, lines[i].product) == lines[i].quantity
    decreases |lines|
  {
    var last := |lines| - 1;
    var init := lines[..last];
    assert forall j :: 0 <= j < last ==> init[j] == lines[j];
    if i == last {
      QtyUnlisted(init, lines[i].product);
    } else {
      QtyOfDistinctLine(init, i);
    }
  }

  /** Demand does not depend on the order of the lines. */
  lemma QtyPermutation(lines: seq<Line>, other: seq<Line>, p: ProductId)
    requires multiset(lines) == multiset(other)
    ensures Qty(lines, p) == Qty(other, p)
    ensures Listed(lines, p) <==> Listed(other, p)
  {
    SumPermutation(lines, other, QuantityOf(p));
    if i :| 0 <= i < |lines| && lines[i].product == p {
      assert lines[i] in multiset(other);
    }
    if i :| 0 <= i < |other| && other[i].product == p {
      assert other[i] in multiset(lines);
    }
  }

  /** Moving the lines one after the other is the closed form; clamping at zero does not disturb it. */
  lemma MoveLinesSnoc(kind: MovementKind, stock: map<ProductId, Stock>, lines: seq<Line>, l: Line)
    requires kind in {Reserve, Release, Purchase} && l.product in stock
    ensures l.product in MoveLines(kind, stock, lines)
    ensures MoveLines(kind, stock, lines + [l])
         == MoveLines(kind, stock, lines)[l.product := MoveRow(kind, MoveLines(kind, stock, lines)[l.product], l.quantity)]
  {
    var before, after := MoveLines(kind, stock, lines), MoveLines(kind, stock, lines + [l]);
    forall p | p in stock
      ensures after[p] == if p == l.product then MoveRow(kind, before[p], l.quantity) else before[p]
    {
      SumSnoc(lines, l, QuantityOf(p));
      ListedSnoc(lines, l, p);
      QtyBounds(lines, p);
      if !Listed(lines, p) {
        QtyUnlisted(lines, p);
      }
    }
  }

  lemma ListedSnoc(lines: seq<Line>, l: Line, p: ProductId)
    ensures Listed(lines + [l], p) <==> Listed(lines, p) || l.product == p
  {
    var all := lines + [l];
    assert all[|lines|] == l;
    if i :| 0 <= i < |lines| && lines[i].product == p {
      assert all[i].product == p;
    }
  }

  lemma NothingMoves(kind: MovementKind, stock: map<ProductId, Stock>)
    ensures MoveLines(kind, stock, []) == stock
  {
  }

  // ---- History rows ------------------------------------------------------------------------

  /** What one history row says it did to the totals. */
  function TotalEffect(p: ProductId): Movement -> int {
    (m: Movement) =>
      if m.product != p then 0
      else match m.kind
        case Restock => m.quantity
        case Adjust => m.quantity
        case Purchase => 0 - m.quantity
        case Reserve => 0
        case Release => 0
  }

  /** What one history row says it did to the reservations. */
  function ReservedEffect(p: ProductId): Movement -> int {
    (m: Movement) =>
      if m.product != p then 0
      else match m.kind
        case Reserve => m.quantity
        case Release => 0 - m.quantity
        case Purchase => 0 - m.quantity
        case Restock => 0
        case Adjust => 0
  }

  /** Units sold according to the history. */
  function PurchasedUnits(p: ProductId): Movement -> int {
    (m: Movement) => if m.product == p && m.kind == Purchase then m.quantity else 0
  }

  /** The rows written for a list of lines account for exactly its quantities. */
  lemma {:induction false} LineMovementsEffect(kind: MovementKind, lines: seq<Line>, order: OrderId, p: ProductId)
    requires kind in {Reserve, Release, Purchase}
    ensures var ms := LineMovements(kind, lines, order);
            && Sum(ms, TotalEffect(p)) == (if kind == Purchase then 0 - Qty(lines, p) else 0)
            && Sum(ms, ReservedEffect(p)) == (if kind == Reserve then Qty(lines, p) else 0 - Qty(lines, p))
            && Sum(ms, PurchasedUnits(p)) == (if kind == Purchase then Qty(lines, p) else 0)
    decreases |lines|
  {
    if lines != [] {
      var last := |lines| - 1;
      assert LineMovements(kind, lines, order)[..last] == LineMovements(kind, lines[..last], order);
      LineMovementsEffect(kind, lines[..last], order, p);
    }
  }

  lemma LineMovementsSnoc(kind: MovementKind, lines: seq<Line>, l: Line, order: OrderId)
    ensures LineMovements(kind, lines + [l], order)
         == LineMovements(kind, lines, order) + [Movement(l.product, kind, l.quantity, Some(order))]
  {
  }

  /** One more line in the loops that commit or release an order line by line. */
  lemma NextMove(kind: MovementKind, stock: map<ProductId, Stock>, lines: seq<Line>, i: nat, order: OrderId)
    requires kind in {Reserve, Release, Purchase} && i < |lines|
    ensures MoveLines(kind, stock, lines[..i]).Keys == stock.Keys
    ensures LineMovements(kind, lines[..i + 1], order)
         == LineMovements(kind, lines[..i], order) + [Movement(lines[i].product, kind, lines[i].quantity, Some(order))]
    ensures lines[i].product in stock ==>
      MoveLines(kind, stock, lines[..i + 1])
        == MoveLines(kind, stock, lines[..i])[lines[i].product :=
             MoveRow(kind, MoveLines(kind, stock, lines[..i])[lines[i].product], lines[i].quantity)]
  {
    assert lines[..i + 1] == lines[..i] + [lines[i]];
    LineMovementsSnoc(kind, lines[..i], lines[i], order);
    if lines[i].product in stock {
      MoveLinesSnoc(kind, stock, lines[..i], lines[i]);
    }
  }
}
