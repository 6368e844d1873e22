/** The order status graph: which moves exist, and what every history along it looks like. */
module OrderGraph {

  datatype OrderStatus =
    | Pending
    | AwaitingPayment
    | Paid
    | Processing
    | Shipped
    | Completed
    | Cancelled
    | PaymentFailed
    | Refunded

  /** The transition table. */
  function AllowedTransitions(status: OrderStatus): set<OrderStatus> {
    match status
    case Pending => {AwaitingPayment, Cancelled}
    case AwaitingPayment => {Paid, PaymentFailed, Cancelled}
    case Paid => {Processing, Refunded, Cancelled}
    case Processing => {Shipped, Cancelled}
    case Shipped => {Completed}
    case Completed => {Refunded}
    case PaymentFailed => {AwaitingPayment, Cancelled}
    case Cancelled => {}
    case Refunded => {}
  }

  predicate Allowed(from: OrderStatus, to: OrderStatus) {
    to in AllowedTransitions(from)
  }

  /** All fourteen moves, edge by edge. */
  const MOVES: set<(OrderStatus, OrderStatus)> := {
    (Pending, AwaitingPayment), (Pending, Cancelled),
    (AwaitingPayment, Paid), (AwaitingPayment, PaymentFailed), (AwaitingPayment, Cancelled),
    (Paid, Processing), (Paid, Refunded), (Paid, Cancelled),
    (Processing, Shipped), (Processing, Cancelled),
    (Shipped, Completed),
    (Completed, Refunded),
    (PaymentFailed, AwaitingPayment), (PaymentFailed, Cancelled)}

  lemma AllowedAreMoves(from: OrderStatus, to: OrderStatus)
    ensures Allowed(from, to) <==> (from, to) in MOVES
  {
    match from {
      case Pending =>
      case AwaitingPayment =>
      case Paid =>
      case Processing =>
      case Shipped =>
      case Completed =>
      case Cancelled =>
      case PaymentFailed =>
      case Refunded =>
    }
  }

  /** One row of the status history. */
  datatype HistoryEntry = HistoryEntry(from: OrderStatus, to: OrderStatus)

  /** `h` is a path in the graph from `start` to `end`. */
  predicate Chain(h: seq<HistoryEntry>, start: OrderStatus, end: OrderStatus) {
    if h == [] then
      start == end
    else
      var last := h[|h| - 1];
      last.to == end && Allowed(last.from, last.to) && Chain(h[..|h| - 1], start, last.from)
  }

  lemma ChainExtend(h: seq<HistoryEntry>, start: OrderStatus, from: OrderStatus, to: OrderStatus)
    requires Chain(h, start, from) && Allowed(from, to)
    ensures Chain(h + [HistoryEntry(from, to)], start, to)
  {
    assert (h + [HistoryEntry(from, to)])[..|h|] == h;
  }

  /** How often the history enters `status`. */
  function Entries(h: seq<HistoryEntry>, status: OrderStatus): nat {
    if h == [] then 0
    else Entries(h[..|h| - 1], status) + if h[|h| - 1].to == status then 1 else 0
  }

  /** A measure that every move outside the retry cycle lowers. */
  function Rank(status: OrderStatus): nat {
    match status
    case Pending => 6
    case AwaitingPayment => 5
    case PaymentFailed => 5
    case Paid => 4
    case Processing => 3
    case Shipped => 2
    case Completed => 1
    case Cancelled => 0
    case Refunded => 0
  }

  /** A move around the only cycle of the graph. */
  predicate RetryMove(e: HistoryEntry) {
    (e.from == AwaitingPayment && e.to == PaymentFailed) || (e.from == PaymentFailed && e.to == AwaitingPayment)
  }

  function ProgressMoves(h: seq<HistoryEntry>): nat {
    if h == [] then 0
    else ProgressMoves(h[..|h| - 1]) + if RetryMove(h[|h| - 1]) then 0 else 1
  }

  /** Statuses an order can have once it has been paid. */
  predicate AfterPaid(status: OrderStatus) {
    status in {Paid, Processing, Shipped, Completed, Cancelled, Refunded}
  }

  /** Statuses that only a paid order can have. */
  predicate OnlyIfPaid(status: OrderStatus) {
    status in {Paid, Processing, Shipped, Completed, Refunded}
  }

  /** An order leaves a status outside the retry cycle at most six times, each time to a lower rank. */
  lemma {:induction false} ProgressIsBounded(h: seq<HistoryEntry>, start: OrderStatus, end: OrderStatus)
    requires Chain(h, start, end)
    ensures ProgressMoves(h) + Rank(end) <= Rank(start)
    ensures forall i :: 0 <= i < |h| && !RetryMove(h[i]) ==> Rank(h[i].to) < Rank(h[i].from)
    decreases |h|
  {
    if h != [] {
      ProgressIsBounded(h[..|h| - 1], start, h[|h| - 1].from);
      forall i | 0 <= i < |h| && !RetryMove(h[i]) ensures Rank(h[i].to) < Rank(h[i].from) {
        if i < |h| - 1 {
          assert h[i] == h[..|h| - 1][i];
        }
      }
    }
  }

  /** `paid` is entered at most once, exactly once in the statuses behind it, and never left backwards. */
  lemma {:induction false} PaidOnce(h: seq<HistoryEntry>, end: OrderStatus)
    requires Chain(h, Pending, end)
    ensures Entries(h, Paid) <= 1
    ensures Entries(h, Paid) == 1 ==> AfterPaid(end)
    ensures OnlyIfPaid(end) ==> Entries(h, Paid) == 1
    decreases |h|
  {
    if h != [] {
      PaidOnce(h[..|h| - 1], h[|h| - 1].from);
    }
  }

  lemma {:induction false} EntriesCountsSteps(h: seq<HistoryEntry>, status: OrderStatus)
    ensures Entries(h, status) > 0 <==> exists i :: 0 <= i < |h| && h[i].to == status
    decreases |h|
  {
    if h != [] {
      var prefix := h[..|h| - 1];
      EntriesCountsSteps(prefix, status);
      if i :| 0 <= i < |prefix| && prefix[i].to == status {
        assert h[i].to == status;
      }
      if i :| 0 <= i < |h| && h[i].to == status {
        assert i < |prefix| ==> prefix[i].to == status;
      }
    }
  }

  lemma {:induction false} ChainPrefix(h: seq<HistoryEntry>, start: OrderStatus, end: OrderStatus, i: nat)
    requires Chain(h, start, end) && i < |h|
    ensures Chain(h[..i + 1], start, h[i].to)
    ensures Allowed(h[i].from, h[i].to) && (i > 0 ==> h[i].from == h[i - 1].to)
    ensures i == |h| - 1 ==> h[i].to == end
    decreases |h|
  {
    var last := |h| - 1;
    if i == last {
      assert h[..i + 1] == h;
      if i > 0 {
        ChainPrefix(h[..last], start, h[last].from, last - 1);
      }
    } else {
      ChainPrefix(h[..last], start, h[last].from, i);
      assert h[..last][..i + 1] == h[..i + 1];
    }
  }

  /** The history of an order never returns to payment once it was paid. */
  lemma NoPaymentAfterPaid(h: seq<HistoryEntry>, end: OrderStatus, i: nat, j: nat)
    requires Chain(h, Pending, end) && i < j < |h| && h[i].to == Paid
    ensures h[j].to !in {AwaitingPayment, PaymentFailed, Paid}
  {
    ChainPrefix(h, Pending, end, j);
    var upToJ := h[..j + 1];
    PaidOnce(upToJ, h[j].to);
    ChainPrefix(h, Pending, end, j - 1);
    var beforeJ := h[..j];
    PaidOnce(beforeJ, h[j - 1].to);
    EntriesCountsSteps(beforeJ, Paid);
    assert beforeJ[i].to == Paid;
    assert upToJ[..j] == beforeJ;
  }

  /** `cancelled` and `refunded` can only end a history. */
  lemma TerminalEndsHistory(h: seq<HistoryEntry>, start: OrderStatus, end: OrderStatus, i: nat)
    requires Chain(h, start, end) && i < |h| && h[i].to in {Cancelled, Refunded}
    ensures i == |h| - 1 && end == h[i].to
  {
    if i < |h| - 1 {
      ChainPrefix(h, start, end, i + 1);
      assert false;
    }
    ChainPrefix(h, start, end, i);
  }

  /** The row before it, if there is one, led to `status`. */
  predicate ComesFrom(h: seq<HistoryEntry>, i: nat, status: OrderStatus)
    requires i < |h|
  {
    h[i].from == status && (i > 0 ==> h[i - 1].to == status)
  }

  lemma FirstMove(h: seq<HistoryEntry>, end: OrderStatus)
    requires Chain(h, Pending, end) && h != []
    ensures h[0].to in {AwaitingPayment, Cancelled}
  {
    ChainPrefix(h, Pending, end, 0);
    assert h[..1][..0] == [];
  }

  /** Fulfilment goes step by step: paid, processing, shipped, completed; a refund follows payment or completion. */
  lemma FulfilmentInOrder(h: seq<HistoryEntry>, end: OrderStatus, i: nat)
    requires Chain(h, Pending, end) && i < |h|
    ensures h[i].to in {Paid, Processing, Shipped, Completed, Refunded, PaymentFailed} ==> i > 0
    ensures h[i].to == Paid ==> ComesFrom(h, i, AwaitingPayment)
    ensures h[i].to == Processing ==> ComesFrom(h, i, Paid)
    ensures h[i].to == Shipped ==> ComesFrom(h, i, Processing)
    ensures h[i].to == Completed ==> ComesFrom(h, i, Shipped)
    ensures h[i].to == Refunded ==> ComesFrom(h, i, Paid) || ComesFrom(h, i, Completed)
    ensures h[i].to == PaymentFailed ==> ComesFrom(h, i, AwaitingPayment)
  {
    ChainPrefix(h, Pending, end, i);
    AllowedAreMoves(h[i].from, h[i].to);
    if i == 0 {
      assert h[..1][..0] == [];
      assert Chain(h[..1], Pending, h[0].to);
    }
  }
}
