/** Refunds and wallets over every run: the ledger pays each refunded order back exactly once. */
module RefundLaws {
  import opened Prelude
  import opened Sums
  import opened OrderGraph
  import opened Ledger
  import opened Shop
  import opened StockLaws
  import opened MoneyLaws

  /** What the ledger of `u` must hold for order `id`. */
  function RefundDue(orders: seq<Order>, u: UserId, id: OrderId): nat {
    if id < |orders| && orders[id].status == Refunded && orders[id].user == u then orders[id].total else 0
  }

  function RefundsDue(orders: seq<Order>, u: UserId, id: OrderId): nat {
    if id < |orders| && orders[id].status == Refunded && orders[id].user == u then 1 else 0
  }

  function RefundedTotal(u: UserId): Order -> int {
    (o: Order) => if o.status == Refunded && o.user == u then o.total else 0
  }

  /** The ledger holds for order `id` what is due, in as many entries as are due. */
  predicate PaidBack(ledger: seq<Entry>, orders: seq<Order>, u: UserId, id: OrderId) {
    Sum(ledger, RefundOf(id)) == RefundDue(orders, u, id) && Sum(ledger, RefundCountOf(id)) == RefundsDue(orders, u, id)
  }

  /** The wallet keeps its books and pays back exactly the refunded orders of `u`. */
  ghost predicate RefundsMatch(w: Wallet, orders: seq<Order>, u: UserId) {
    && WellKept(w)
    && (forall id: OrderId :: PaidBack(w.ledger, orders, u, id))
    && Sum(w.ledger, AnyRefund()) == Sum(orders, RefundedTotal(u))
  }

  ghost predicate RefundsOk(s: Shop, u: UserId) {
    RefundsMatch(WalletOf(s.wallets, u), s.orders, u)
  }

  /** Requests that can end an order as refunded. */
  predicate IsRefund(s: Shop, e: Event) {
    e.UpdateStatus? && e.to == Refunded && Transaction(s, e).Some?
  }

  predicate PostsMoney(e: Event) {
    e.DepositMoney? || e.CreditByAdmin? || e.DebitByAdmin?
  }

  /** The same refunded orders; anything added behind them is not refunded. */
  ghost predicate SameRefunded(orders: seq<Order>, orders': seq<Order>) {
    && |orders| <= |orders'|
    && (forall i :: 0 <= i < |orders| ==>
          && orders'[i].user == orders[i].user && orders'[i].total == orders[i].total
          && (orders'[i].status == Refunded <==> orders[i].status == Refunded))
    && (forall i :: |orders| <= i < |orders'| ==> orders'[i].status != Refunded)
  }

  lemma {:induction false} RefundedTotalsStay(orders: seq<Order>, orders': seq<Order>, u: UserId)
    requires SameRefunded(orders, orders')
    ensures Sum(orders', RefundedTotal(u)) == Sum(orders, RefundedTotal(u))
    decreases |orders'|
  {
    if orders' != [] {
      var last := |orders'| - 1;
      var init := if |orders'| == |orders| then orders[..last] else orders;
      assert SameRefunded(init, orders'[..last]);
      RefundedTotalsStay(init, orders'[..last], u);
    }
  }

  /** Requests other than refunds leave every order refunded or not, as it was. */
  lemma RefundedStays(s: Shop, e: Event)
    requires !IsRefund(s, e)
    ensures SameRefunded(s.orders, Step(s, e).orders)
  {
    var t := Step(s, e);
    OrdersEvolve(s, e);
    forall i | 0 <= i < |s.orders| ensures t.orders[i].status == Refunded <==> s.orders[i].status == Refunded {
      WhoMovesOrders(s, e, i);
      assert OrderAdvances(s.orders[i], t.orders[i]);
    }
  }

  lemma WalletsEvolve(s: Shop, e: Event, u: UserId)
    requires !IsRefund(s, e)
    ensures WalletOf(Step(s, e).wallets, u) == WalletOf(s.wallets, u)
      || (PostsMoney(e) && e.user == u
          && exists kind :: kind != Refund
               && Posted(WalletOf(s.wallets, u), kind, e.amount, None) == Some(WalletOf(Step(s, e).wallets, u)))
  {
    var t := Step(s, e);
    match e
    case DepositMoney(v, n) =>
      assert WalletOf(t.wallets, u) != WalletOf(s.wallets, u) ==>
               Posted(WalletOf(s.wallets, u), Deposit, n, None) == Some(WalletOf(t.wallets, u));
    case CreditByAdmin(v, n) =>
      assert WalletOf(t.wallets, u) != WalletOf(s.wallets, u) ==>
               Posted(WalletOf(s.wallets, u), AdminCredit, n, None) == Some(WalletOf(t.wallets, u));
    case DebitByAdmin(v, n) =>
      assert WalletOf(t.wallets, u) != WalletOf(s.wallets, u) ==>
               Posted(WalletOf(s.wallets, u), AdminDebit, n, None) == Some(WalletOf(t.wallets, u));
    case _ =>
  }

  /** What one more entry adds to the refund sums. */
  lemma RefundSumsSnoc(ledger: seq<Entry>, e: Entry, id: OrderId)
    ensures var mine := e.kind == Refund && e.order == Some(id);
            && Sum(ledger + [e], RefundOf(id)) == Sum(ledger, RefundOf(id)) + (if mine then e.amount else 0)
            && Sum(ledger + [e], RefundCountOf(id)) == Sum(ledger, RefundCountOf(id)) + (if mine then 1 else 0)
            && Sum(ledger + [e], AnyRefund()) == Sum(ledger, AnyRefund()) + (if e.kind == Refund then e.amount else 0)
  {
    SumSnoc(ledger, e, RefundOf(id));
    SumSnoc(ledger, e, RefundCountOf(id));
    SumSnoc(ledger, e, AnyRefund());
  }

  /** One more entry pays back order `k`, newly refunded, and no other. */
  lemma PaidBackSnoc(ledger: seq<Entry>, e: Entry, orders: seq<Order>, k: OrderId, u: UserId, id: OrderId)
    requires k < |orders| && orders[k].status != Refunded && orders[k].user == u
    requires e.kind == Refund && e.order == Some(k) && e.amount == orders[k].total
    requires PaidBack(ledger, orders, u, id)
    ensures PaidBack(ledger + [e], orders[k := MovedOrder(orders[k], Refunded)], u, id)
  {
    RefundSumsSnoc(ledger, e, id);
    RefundedDues(orders, k, u, id);
  }

  lemma AllPaidBack(ledger: seq<Entry>, e: Entry, orders: seq<Order>, k: OrderId, u: UserId)
    requires k < |orders| && orders[k].status != Refunded && orders[k].user == u
    requires e.kind == Refund && e.order == Some(k) && e.amount == orders[k].total
    requires forall id: OrderId :: PaidBack(ledger, orders, u, id)
    requires Sum(ledger, AnyRefund()) == Sum(orders, RefundedTotal(u))
    ensures var orders' := orders[k := MovedOrder(orders[k], Refunded)];
            && (forall id: OrderId :: PaidBack(ledger + [e], orders', u, id))
            && Sum(ledger + [e], AnyRefund()) == Sum(orders', RefundedTotal(u))
  {
    var ledger', orders' := ledger + [e], orders[k := MovedOrder(orders[k], Refunded)];
    forall id: OrderId ensures PaidBack(ledger', orders', u, id) {
      PaidBackSnoc(ledger, e, orders, k, u, id);
    }
    RefundSumsSnoc(ledger, e, k);
    SumUpdate(orders, k, MovedOrder(orders[k], Refunded), RefundedTotal(u));
  }

  /** The ledgers have the same refunds of order `id`. */
  predicate SameRefundsOf(ledger: seq<Entry>, ledger': seq<Entry>, id: OrderId) {
    Sum(ledger', RefundOf(id)) == Sum(ledger, RefundOf(id)) && Sum(ledger', RefundCountOf(id)) == Sum(ledger, RefundCountOf(id))
  }

  /** The wallet changed, if at all, by an entry that is no refund. */
  ghost predicate SameRefundEntries(w: Wallet, w': Wallet) {
    && WellKept(w')
    && (forall id: OrderId :: SameRefundsOf(w.ledger, w'.ledger, id))
    && Sum(w'.ledger, AnyRefund()) == Sum(w.ledger, AnyRefund())
  }

  lemma OrdinaryPosting(w: Wallet, kind: EntryKind, amount: nat)
    requires WellKept(w) && kind != Refund && Posted(w, kind, amount, None).Some?
    ensures SameRefundEntries(w, Posted(w, kind, amount, None).value)
  {
    PostedKeepsBooks(w, kind, amount, None);
    var e := Entry(kind, amount, w.balance + Signed(kind, amount), None);
    forall id: OrderId ensures SameRefundsOf(w.ledger, w.ledger + [e], id) {
      RefundSumsSnoc(w.ledger, e, id);
    }
    RefundSumsSnoc(w.ledger, e, 0);
  }

  lemma DuesStay(orders: seq<Order>, orders': seq<Order>, u: UserId, id: OrderId)
    requires SameRefunded(orders, orders')
    ensures RefundDue(orders', u, id) == RefundDue(orders, u, id) && RefundsDue(orders', u, id) == RefundsDue(orders, u, id)
  {
  }

  lemma RefundsCarryOver(s: Shop, t: Shop, u: UserId)
    requires RefundsOk(s, u) && SameRefunded(s.orders, t.orders)
    requires SameRefundEntries(WalletOf(s.wallets, u), WalletOf(t.wallets, u))
    ensures RefundsOk(t, u)
  {
    RefundedTotalsStay(s.orders, t.orders, u);
    var w, w' := WalletOf(s.wallets, u), WalletOf(t.wallets, u);
    forall id: OrderId ensures PaidBack(w'.ledger, t.orders, u, id) {
      assert PaidBack(w.ledger, s.orders, u, id) && SameRefundsOf(w.ledger, w'.ledger, id);
      DuesStay(s.orders, t.orders, u, id);
    }
  }

  lemma PlainStepKeepsRefunds(s: Shop, e: Event, u: UserId)
    requires RefundsOk(s, u) && !IsRefund(s, e)
    ensures RefundsOk(Step(s, e), u)
  {
    RefundedStays(s, e);
    WalletsEvolve(s, e, u);
    var w, w' := WalletOf(s.wallets, u), WalletOf(Step(s, e).wallets, u);
    if w' != w {
      var kind :| kind != Refund && Posted(w, kind, e.amount, None) == Some(w');
      OrdinaryPosting(w, kind, e.amount);
    }
    RefundsCarryOver(s, Step(s, e), u);
  }

  lemma RefundedDues(orders: seq<Order>, k: OrderId, u: UserId, id: OrderId)
    requires k < |orders| && orders[k].status != Refunded
    ensures var orders', mine := orders[k := MovedOrder(orders[k], Refunded)], id == k && orders[k].user == u;
            && RefundDue(orders', u, id) == RefundDue(orders, u, id) + (if mine then orders[k].total else 0)
            && RefundsDue(orders', u, id) == RefundsDue(orders, u, id) + (if mine then 1 else 0)
  {
  }

  /** The tables after a refund of order `k`. */
  lemma RefundIs(s: Shop, k: OrderId)
    requires UpdateStatusTx(s, k, Refunded).Some?
    ensures var t, o := UpdateStatusTx(s, k, Refunded).value, s.orders[k];
            && o.status != Refunded
            && t.orders == s.orders[k := MovedOrder(o, Refunded)]
            && Posted(WalletOf(s.wallets, o.user), Refund, o.total, Some(k)) == Some(WalletOf(t.wallets, o.user))
            && forall u :: u != o.user ==> WalletOf(t.wallets, u) == WalletOf(s.wallets, u)
  {
  }

  /** The refund posted for order `k` keeps the customer's books and pays back what the order now is due. */
  lemma RefundMatches(w: Wallet, orders: seq<Order>, k: OrderId, u: UserId)
    requires k < |orders| && orders[k].status != Refunded && orders[k].user == u
    requires RefundsMatch(w, orders, u)
    ensures var p := Posted(w, Refund, orders[k].total, Some(k));
            p.Some? && RefundsMatch(p.value, orders[k := MovedOrder(orders[k], Refunded)], u)
  {
    var p := RefundPosted(w, orders[k].total, k);
    var orders' := orders[k := MovedOrder(orders[k], Refunded)];
    RefundPaysBack(w.ledger, p.ledger, orders, k, u, p.balance);
    assert WellKept(p);
    assert forall id: OrderId :: PaidBack(p.ledger, orders', u, id);
    assert Sum(p.ledger, AnyRefund()) == Sum(orders', RefundedTotal(u));
  }

  lemma RefundPosted(w: Wallet, amount: nat, k: OrderId) returns (p: Wallet)
    requires WellKept(w)
    ensures Posted(w, Refund, amount, Some(k)) == Some(p) && WellKept(p)
    ensures p.ledger == w.ledger + [Entry(Refund, amount, p.balance, Some(k))]
  {
    PostedKeepsBooks(w, Refund, amount, Some(k));
    p := Posted(w, Refund, amount, Some(k)).value;
  }

  lemma RefundPaysBack(ledger: seq<Entry>, ledger': seq<Entry>, orders: seq<Order>, k: OrderId, u: UserId, balance: int)
    requires k < |orders| && orders[k].status != Refunded && orders[k].user == u
    requires forall id: OrderId :: PaidBack(ledger, orders, u, id)
    requires Sum(ledger, AnyRefund()) == Sum(orders, RefundedTotal(u))
    requires ledger' == ledger + [Entry(Refund, orders[k].total, balance, Some(k))]
    ensures var orders' := orders[k := MovedOrder(orders[k], Refunded)];
            && (forall id: OrderId :: PaidBack(ledger', orders', u, id))
            && Sum(ledger', AnyRefund()) == Sum(orders', RefundedTotal(u))
  {
    AllPaidBack(ledger, Entry(Refund, orders[k].total, balance, Some(k)), orders, k, u);
  }

  lemma CustomerRefunded(s: Shop, t: Shop, k: OrderId, u: UserId)
    requires k < |s.orders| && s.orders[k].status != Refunded && s.orders[k].user == u
    requires RefundsOk(s, u) && t.orders == s.orders[k := MovedOrder(s.orders[k], Refunded)]
    requires Posted(WalletOf(s.wallets, u), Refund, s.orders[k].total, Some(k)) == Some(WalletOf(t.wallets, u))
    ensures RefundsOk(t, u)
  {
    RefundMatches(WalletOf(s.wallets, u), s.orders, k, u);
  }

  lemma OtherCustomerRefunded(s: Shop, t: Shop, k: OrderId, u: UserId)
    requires k < |s.orders| && s.orders[k].status != Refunded && s.orders[k].user != u
    requires RefundsOk(s, u) && t.orders == s.orders[k := MovedOrder(s.orders[k], Refunded)]
    requires WalletOf(t.wallets, u) == WalletOf(s.wallets, u)
    ensures RefundsOk(t, u)
  {
    SumUpdate(s.orders, k, t.orders[k], RefundedTotal(u));
    forall id: OrderId ensures PaidBack(WalletOf(t.wallets, u).ledger, t.orders, u, id) {
      assert PaidBack(WalletOf(s.wallets, u).ledger, s.orders, u, id);
      RefundedDues(s.orders, k, u, id);
    }
  }

  lemma RefundKeepsRefunds(s: Shop, e: Event, u: UserId)
    requires RefundsOk(s, u) && IsRefund(s, e)
    ensures RefundsOk(Step(s, e), u)
  {
    RefundKeepsWallets(s, UpdateStatusTx(s, e.order, Refunded).value, e.order, u);
  }

  lemma RefundKeepsWallets(s: Shop, t: Shop, k: OrderId, u: UserId)
    requires RefundsOk(s, u) && UpdateStatusTx(s, k, Refunded) == Some(t)
    ensures RefundsOk(t, u)
  {
    RefundIs(s, k);
    if s.orders[k].user == u {
      CustomerRefunded(s, t, k, u);
    } else {
      OtherCustomerRefunded(s, t, k, u);
    }
  }

  lemma NoRefundsYet(u: UserId)
    ensures RefundsOk(EMPTY_SHOP, u)
  {
    forall id: OrderId ensures PaidBack([], [], u, id) {
    }
  }

  lemma {:induction false} RunKeepsRefunds(s: Shop, events: seq<Event>, u: UserId)
    requires RefundsOk(s, u)
    ensures RefundsOk(Run(s, events), u)
    decreases |events|
  {
    if events != [] {
      var init := events[..|events| - 1];
      RunKeepsRefunds(s, init, u);
      if IsRefund(Run(s, init), events[|events| - 1]) {
        RefundKeepsRefunds(Run(s, init), events[|events| - 1], u);
      } else {
        PlainStepKeepsRefunds(Run(s, init), events[|events| - 1], u);
      }
    }
  }

  /**
   * In every run from an empty shop: the customer's ledger pays a refunded order back once, in full, and
   * an order that is not refunded never; each refunded order has `paid` in its history; nobody else is paid
   * for it.
   */
  lemma RefundExactlyOnce(events: seq<Event>, id: OrderId, u: UserId)
    requires id < |Run(EMPTY_SHOP, events).orders|
    ensures var t := Run(EMPTY_SHOP, events);
            var o, ledger := t.orders[id], WalletOf(t.wallets, u).ledger;
            var due := o.status == Refunded && o.user == u;
            && Sum(ledger, RefundOf(id)) == (if due then o.total else 0)
            && Sum(ledger, RefundCountOf(id)) == (if due then 1 else 0)
            && (o.status == Refunded ==> Entries(o.history, Paid) == 1)
            && Sum(ledger, AnyRefund()) == Sum(t.orders, RefundedTotal(u))
  {
    EmptyShopWellFormed();
    NoRefundsYet(u);
    RunKeepsRefunds(EMPTY_SHOP, events, u);
    OrderHistoriesArePaths(EMPTY_SHOP, events, id);
    var t := Run(EMPTY_SHOP, events);
    assert PaidBack(WalletOf(t.wallets, u).ledger, t.orders, u, id);
  }

  /** Every wallet of every run keeps its books: cached balance, prefix balances, never overdrawn. */
  lemma WalletsKeepBooks(events: seq<Event>, u: UserId)
    ensures WellKept(WalletOf(Run(EMPTY_SHOP, events).wallets, u))
  {
    NoRefundsYet(u);
    RunKeepsRefunds(EMPTY_SHOP, events, u);
  }
}
