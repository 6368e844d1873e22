/** Which orders that entered `paid` were paid for: exactly those that no admin moved there. */
module PaidLaws {
  import opened Prelude
  import opened OrderGraph
  import opened Shop
  import opened StockLaws
  import opened MoneyLaws

  predicate HasVerified(payments: seq<Payment>, id: OrderId) {
    exists i :: 0 <= i < |payments| && payments[i].order == id && payments[i].status == Verified
  }

  /** An admin moves order `id` to `paid`. */
  predicate AdminPays(s: Shop, e: Event, id: OrderId) {
    e.UpdateStatus? && e.order == id && e.to == Paid && AdminMoveGoes(s, id, Paid)
  }

  /** A callback settles a payment of order `id` that the gateway has accepted. */
  predicate CallbackPays(s: Shop, e: Event, id: OrderId) {
    && e.Callback? && CallbackGoes(s, e.authority, e.gatewayOk, e.verification)
    && e.gatewayOk && e.verification.Accepted?
    && s.payments[FindPayment(s.payments, e.authority).value].order == id
  }

  /** Some event of the run is an admin's move of order `id` to `paid`. */
  predicate PaidByAdmin(events: seq<Event>, id: OrderId) {
    events != [] &&
    (PaidByAdmin(events[..|events| - 1], id)
     || AdminPays(Run(EMPTY_SHOP, events[..|events| - 1]), events[|events| - 1], id))
  }

  // ---- What one request does ---------------------------------------------------------------

  lemma MovedEntries(o: Order, to: OrderStatus)
    ensures Entries(MovedOrder(o, to).history, Paid) == Entries(o.history, Paid) + if to == Paid then 1 else 0
  {
    var next := HistoryEntry(o.status, to);
    assert (o.history + [next])[..|o.history|] == o.history;
  }

  /** The payments after a callback. */
  lemma CallbackPayments(s: Shop, e: Event, t: Shop)
    requires WellFormed(s) && e.Callback? && t == Step(s, e)
    ensures var i := FindPayment(s.payments, e.authority);
            t.payments
              == if CallbackGoes(s, e.authority, e.gatewayOk, e.verification)
                 then s.payments[i.value := s.payments[i.value].(
                        status := if e.gatewayOk && e.verification.Accepted? then Verified else Failed)]
                 else s.payments
  {
    CallbackTxIs(s, e.authority, e.gatewayOk, e.verification);
    assert t == match CallbackTx(s, e.authority, e.gatewayOk, e.verification) case Some(next) => next case None => s;
  }

  lemma SettledVerifies(payments: seq<Payment>, i: nat, status: PaymentStatus, id: OrderId)
    requires i < |payments| && payments[i].status == Initiated
    ensures HasVerified(payments[i := payments[i].(status := status)], id)
       <==> HasVerified(payments, id) || (status == Verified && payments[i].order == id)
  {
    var payments' := payments[i := payments[i].(status := status)];
    if HasVerified(payments, id) {
      var j :| 0 <= j < |payments| && payments[j].order == id && payments[j].status == Verified;
      assert payments'[j] == payments[j];
    }
    if status == Verified && payments[i].order == id {
      assert payments'[i].status == Verified;
    }
    if HasVerified(payments', id) {
      var j :| 0 <= j < |payments'| && payments'[j].order == id && payments'[j].status == Verified;
      assert j != i ==> payments'[j] == payments[j];
    }
  }

  lemma StartedVerifiesNothing(payments: seq<Payment>, p: Payment, id: OrderId)
    requires p.status == Initiated
    ensures HasVerified(payments + [p], id) <==> HasVerified(payments, id)
  {
    var payments' := payments + [p];
    if HasVerified(payments, id) {
      var j :| 0 <= j < |payments| && payments[j].order == id && payments[j].status == Verified;
      assert payments'[j] == payments[j];
    }
  }

  /** A request verifies a payment of order `id` only as a callback that pays it. */
  lemma VerifiedNext(s: Shop, e: Event, t: Shop, id: OrderId)
    requires WellFormed(s) && t == Step(s, e)
    ensures HasVerified(t.payments, id) <==> HasVerified(s.payments, id) || CallbackPays(s, e, id)
  {
    if e.Callback? {
      CallbackPayments(s, e, t);
      if CallbackGoes(s, e.authority, e.gatewayOk, e.verification) {
        SettledVerifies(s.payments, FindPayment(s.payments, e.authority).value,
                        if e.gatewayOk && e.verification.Accepted? then Verified else Failed, id);
      }
    } else if e.InitPayment? && Transaction(s, e).Some? {
      StartedVerifiesNothing(s.payments, t.payments[|s.payments|], id);
    } else {
      PaymentsEvolve(s, e);
    }
  }

  lemma CallbackEnters(s: Shop, e: Event, t: Shop, id: OrderId)
    requires WellFormed(s) && e.Callback? && t == Step(s, e) && id < |s.orders|
    ensures id < |t.orders|
    ensures Entries(t.orders[id].history, Paid)
         == Entries(s.orders[id].history, Paid) + if CallbackPays(s, e, id) then 1 else 0
  {
    CallbackIs(s, e.authority, e.gatewayOk, e.verification, t);
    if Moves(s, e).Some? {
      MovedEntries(s.orders[id], Moves(s, e).value.to);
    }
  }

  lemma CancelEnters(s: Shop, e: Event, t: Shop, id: OrderId)
    requires WellFormed(s) && e.CancelOrder? && t == Step(s, e) && id < |s.orders|
    ensures id < |t.orders| && Entries(t.orders[id].history, Paid) == Entries(s.orders[id].history, Paid)
  {
    CancelIs(s, e.order, e.user, e.privileged);
    MovedEntries(s.orders[id], Cancelled);
  }

  lemma AdminEnters(s: Shop, e: Event, t: Shop, id: OrderId)
    requires WellFormed(s) && e.UpdateStatus? && t == Step(s, e) && id < |s.orders|
    ensures id < |t.orders|
    ensures Entries(t.orders[id].history, Paid)
         == Entries(s.orders[id].history, Paid) + if AdminPays(s, e, id) then 1 else 0
  {
    MovedEntries(s.orders[id], e.to);
  }

  /** A request moves order `id` into `paid` only as an admin or as a callback that pays it. */
  lemma EntersPaid(s: Shop, e: Event, t: Shop, id: OrderId)
    requires WellFormed(s) && t == Step(s, e) && id < |s.orders|
    ensures id < |t.orders|
    ensures Entries(t.orders[id].history, Paid)
         == Entries(s.orders[id].history, Paid) + if AdminPays(s, e, id) || CallbackPays(s, e, id) then 1 else 0
  {
    if e.Callback? {
      CallbackEnters(s, e, t, id);
    } else if e.CancelOrder? {
      CancelEnters(s, e, t, id);
    } else if e.UpdateStatus? {
      AdminEnters(s, e, t, id);
    } else {
      OrdersEvolve(s, e);
    }
  }

  // ---- What every run keeps ----------------------------------------------------------------

  /** Order `id` entered `paid` by a verified payment or by an admin, never by both. */
  predicate PaidOneWay(s: Shop, id: OrderId, byAdmin: bool) {
    if id >= |s.orders| then !byAdmin && !HasVerified(s.payments, id)
    else
      && (Entries(s.orders[id].history, Paid) == 1 <==> HasVerified(s.payments, id) || byAdmin)
      && !(HasVerified(s.payments, id) && byAdmin)
  }

  /** Whoever pays an order finds it awaiting payment, and so never paid. */
  lemma PayingFindsUnpaid(s: Shop, e: Event, id: OrderId)
    requires WellFormed(s) && (AdminPays(s, e, id) || CallbackPays(s, e, id))
    ensures id < |s.orders| && Entries(s.orders[id].history, Paid) == 0
  {
    assert OrderOk(s.orders[id], s.stock);
    PaidOnce(s.orders[id].history, s.orders[id].status);
  }

  lemma NewOrderIsUnpaid(s: Shop, e: Event, t: Shop, id: OrderId)
    requires t == Step(s, e) && |s.orders| <= id < |t.orders|
    ensures Entries(t.orders[id].history, Paid) == 0 && e.Checkout?
  {
    OrdersEvolve(s, e);
    assert t.orders[id].history == [HistoryEntry(Pending, AwaitingPayment)];
  }

  lemma StepKeepsPaidOneWay(s: Shop, e: Event, t: Shop, id: OrderId, byAdmin: bool)
    requires WellFormed(s) && PaidOneWay(s, id, byAdmin) && t == Step(s, e)
    ensures PaidOneWay(t, id, byAdmin || AdminPays(s, e, id))
  {
    VerifiedNext(s, e, t, id);
    OrdersEvolve(s, e);
    if AdminPays(s, e, id) || CallbackPays(s, e, id) {
      PayingFindsUnpaid(s, e, id);
    }
    if id < |s.orders| {
      assert OrderOk(s.orders[id], s.stock);
      PaidOnce(s.orders[id].history, s.orders[id].status);
      EntersPaid(s, e, t, id);
    } else if id < |t.orders| {
      NewOrderIsUnpaid(s, e, t, id);
    }
  }

  lemma {:induction false} RunKeepsPaidOneWay(events: seq<Event>, id: OrderId)
    ensures PaidOneWay(Run(EMPTY_SHOP, events), id, PaidByAdmin(events, id))
    decreases |events|
  {
    if events != [] {
      var init, e := events[..|events| - 1], events[|events| - 1];
      RunKeepsPaidOneWay(init, id);
      EmptyShopWellFormed();
      RunKeepsWellFormed(EMPTY_SHOP, init);
      StepKeepsPaidOneWay(Run(EMPTY_SHOP, init), e, Run(EMPTY_SHOP, events), id, PaidByAdmin(init, id));
    }
  }

  /**
   * In every run from an empty shop, an order that entered `paid`, and so every refunded one, has a verified
   * payment if and only if no admin moved it there; an order that never entered `paid` has none.
   */
  lemma VerifiedIffNotPaidByAdmin(events: seq<Event>, id: OrderId)
    requires id < |Run(EMPTY_SHOP, events).orders|
    ensures var t := Run(EMPTY_SHOP, events);
            var o := t.orders[id];
            && (Entries(o.history, Paid) == 1 ==> (HasVerified(t.payments, id) <==> !PaidByAdmin(events, id)))
            && (o.status == Refunded ==> (HasVerified(t.payments, id) <==> !PaidByAdmin(events, id)))
            && (Entries(o.history, Paid) == 0 ==> !HasVerified(t.payments, id) && !PaidByAdmin(events, id))
  {
    RunKeepsPaidOneWay(events, id);
    EmptyShopWellFormed();
    OrderHistoriesArePaths(EMPTY_SHOP, events, id);
  }
}
