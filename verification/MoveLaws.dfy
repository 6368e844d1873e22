/** Which requests really move an order, status by status. */
module MoveLaws {
  import opened Prelude
  import opened OrderGraph
  import opened Ledger
  import opened Shop
  import opened StockLaws

  /** The order has taken one step to `to`, and no other order has changed. */
  predicate Moved(s: Shop, t: Shop, id: OrderId, to: OrderStatus)
    requires id < |s.orders|
  {
    && |t.orders| == |s.orders|
    && t.orders[id].status == to
    && t.orders[id].history == s.orders[id].history + [HistoryEntry(s.orders[id].status, to)]
    && forall k :: 0 <= k < |s.orders| && k != id ==> t.orders[k] == s.orders[k]
  }

  /** An admin moves an order exactly along the moves, refunds included. */
  lemma AdminMovesIff(s: Shop, id: OrderId, to: OrderStatus)
    requires id < |s.orders| && WellKept(WalletOf(s.wallets, s.orders[id].user))
    ensures var t := Step(s, UpdateStatus(id, to));
            if (s.orders[id].status, to) in MOVES then Moved(s, t, id, to) else t == s
  {
    AllowedAreMoves(s.orders[id].status, to);
    PostedByKind(WalletOf(s.wallets, s.orders[id].user), Refund, s.orders[id].total, Some(id));
  }

  /** A cancel goes through exactly for the owner or a privileged user, before shipping and unless it is over. */
  lemma CancelMovesIff(s: Shop, id: OrderId, user: UserId, privileged: bool)
    requires WellFormed(s) && id < |s.orders|
    ensures var t := Step(s, CancelOrder(id, user, privileged));
            if (s.orders[id].user == user || privileged)
               && s.orders[id].status in {AwaitingPayment, Paid, Processing, PaymentFailed}
            then Moved(s, t, id, Cancelled)
            else t == s
  {
    OrderIsStocked(s, id);
    AllowedAreMoves(s.orders[id].status, Cancelled);
    CancelIs(s, id, user, privileged);
  }

  /** A first callback moves its order to `paid` or `payment_failed` exactly if it awaits payment. */
  lemma CallbackMovesIff(s: Shop, a: Authority, ok: bool, v: Verification)
    requires WellFormed(s)
    requires var i := FindPayment(s.payments, a);
             i.Some? && s.payments[i.value].status == Initiated && s.payments[i.value].order < |s.orders|
    requires !(ok && v.Unavailable?)
    ensures var id := s.payments[FindPayment(s.payments, a).value].order;
            var t := Step(s, Callback(a, ok, v));
            if s.orders[id].status == AwaitingPayment
            then Moved(s, t, id, if ok && v.Accepted? then Paid else PaymentFailed)
            else t == s
  {
    CallbackIs(s, a, ok, v, Step(s, Callback(a, ok, v)));
  }

  /** A checkout leaves its order behind in `awaiting_payment`, one step from `pending`. */
  lemma CheckoutMoves(s: Shop, user: UserId)
    requires CheckoutTx(s, user).Some?
    ensures var t := Step(s, Checkout(user));
            && |t.orders| == |s.orders| + 1
            && t.orders[|s.orders|].status == AwaitingPayment
            && t.orders[|s.orders|].history == [HistoryEntry(Pending, AwaitingPayment)]
  {
  }

  /** A paid order is processed, shipped, completed and refunded step by step, and its total is in the wallet. */
  lemma FulfilmentGoesThrough(s: Shop, id: OrderId)
    requires id < |s.orders| && s.orders[id].status == Paid && WellKept(WalletOf(s.wallets, s.orders[id].user))
    ensures var s1 := Step(s, UpdateStatus(id, Processing));
            var s2 := Step(s1, UpdateStatus(id, Shipped));
            var s3 := Step(s2, UpdateStatus(id, Completed));
            var s4 := Step(s3, UpdateStatus(id, Refunded));
            && Moved(s, s1, id, Processing) && Moved(s1, s2, id, Shipped) && Moved(s2, s3, id, Completed)
            && Moved(s3, s4, id, Refunded)
            && WalletOf(s4.wallets, s.orders[id].user).balance == WalletOf(s.wallets, s.orders[id].user).balance + s.orders[id].total
  {
    var s1 := AdminStep(s, id, Processing);
    var s2 := AdminStep(s1, id, Shipped);
    var s3 := AdminStep(s2, id, Completed);
    AdminMovesIff(s3, id, Refunded);
    PostedByKind(WalletOf(s3.wallets, s3.orders[id].user), Refund, s3.orders[id].total, Some(id));
  }

  /** A move that is no refund leaves wallets, owner and total alone. */
  lemma AdminStep(s: Shop, id: OrderId, to: OrderStatus) returns (t: Shop)
    requires id < |s.orders| && WellKept(WalletOf(s.wallets, s.orders[id].user))
    requires (s.orders[id].status, to) in MOVES && to != Refunded
    ensures t == Step(s, UpdateStatus(id, to)) && Moved(s, t, id, to) && t.wallets == s.wallets
    ensures t.orders[id].user == s.orders[id].user && t.orders[id].total == s.orders[id].total
  {
    AdminMovesIff(s, id, to);
    AllowedAreMoves(s.orders[id].status, to);
    t := Step(s, UpdateStatus(id, to));
  }
}
