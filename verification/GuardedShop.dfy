/**
 * The shop behind its routes, guarded or not, in any mix: retries cost nothing, so every law of a run holds
 * of a run with retries. The guard compares bodies only; a wallet in the path and the gateway's answer are
 * not in the body.
 */
module GuardedShop {
  import opened Prelude
  import opened Sums
  import opened OrderGraph
  import opened Ledger
  import Shop
  import RefundLaws
  import Idempotency

  /** The request bodies, all fields that are hashed; both admin adjustments send the same kind. `Plain` is any route that has no guard. */
  datatype Body =
    | AddItemBody(product: Shop.ProductId, quantity: nat)
    | CheckoutBody(address: string)
    | InitBody(order: Shop.OrderId)
    | DepositBody(amount: nat)
    | AdjustBody(amount: nat, reason: string)
    | Plain(event: Shop.Event)

  /** What a route reads besides the body: the wallet in its path, and what the gateway will answer. */
  datatype Outside = Outside(wallet: Shop.UserId, gateway: Shop.Gateway)

  type Call = Idempotency.Request<Body, Outside>

  const ADMIN_CREDIT := "wallet.admin_credit"

  /** The event that a call asks for. */
  function EventOf(call: Call): Shop.Event {
    match call.body
    case AddItemBody(p, q) => Shop.AddItem(call.user, p, q)
    case CheckoutBody(_) => Shop.Checkout(call.user)
    case InitBody(o) => Shop.InitPayment(call.user, o, call.rest.gateway)
    case DepositBody(n) => Shop.DepositMoney(call.user, n)
    case AdjustBody(n, _) =>
      if call.operation == ADMIN_CREDIT then Shop.CreditByAdmin(call.rest.wallet, n)
      else Shop.DebitByAdmin(call.rest.wallet, n)
    case Plain(e) => e
  }

  /** A route body as the guard sees it; the response is the state of the tables it committed. */
  function Serve(s: Shop.Shop, call: Call): Result<(Shop.Shop, Shop.Shop)> {
    match Shop.Transaction(s, EventOf(call))
    case Some(t) => Ok((t, t))
    case None => Err(Conflict)
  }

  function Events(calls: seq<Call>): seq<Shop.Event> {
    seq(|calls|, i requires 0 <= i < |calls| => EventOf(calls[i]))
  }

  function Answers(calls: seq<Call>): (outs: seq<Idempotency.Outcome<Shop.Shop>>)
    ensures |outs| == |calls|
  {
    Idempotency.Outcomes(Serve, Idempotency.Database(Shop.EMPTY_SHOP, map[]), calls)
  }

  ghost function GuardedRun(calls: seq<Call>): Shop.Shop {
    Idempotency.Run(Serve, Idempotency.Database(Shop.EMPTY_SHOP, map[]), calls).state
  }

  ghost function WithoutRetries(calls: seq<Call>): seq<Shop.Event> {
    Events(Idempotency.Deduplicated(calls, Answers(calls)))
  }

  lemma {:induction false} PlainIsShopRun(s: Shop.Shop, calls: seq<Call>)
    ensures Idempotency.Plain(Serve, s, calls) == Shop.Run(s, Events(calls))
    decreases |calls|
  {
    if calls != [] {
      var last := |calls| - 1;
      PlainIsShopRun(s, calls[..last]);
      EventsOfPrefix(calls, last);
    }
  }

  lemma EventsOfPrefix(calls: seq<Call>, i: nat)
    requires i <= |calls|
    ensures Events(calls)[..i] == Events(calls[..i])
  {
  }

  /** A guarded run of the shop is a serial run of its requests without the retries. */
  lemma GuardedRunIsShopRun(calls: seq<Call>)
    ensures GuardedRun(calls) == Shop.Run(Shop.EMPTY_SHOP, WithoutRetries(calls))
  {
    Idempotency.GuardIsDeduplication(Serve, Shop.EMPTY_SHOP, calls);
    PlainIsShopRun(Shop.EMPTY_SHOP, Idempotency.Deduplicated(calls, Answers(calls)));
  }

  /** However often requests are retried: wallets keep their books and refunds are paid once. */
  lemma RetriesKeepMoneyLaws(calls: seq<Call>, id: Shop.OrderId, u: Shop.UserId)
    requires id < |GuardedRun(calls).orders|
    ensures var t := GuardedRun(calls);
            var ledger := WalletOf(t.wallets, u).ledger;
            && WellKept(WalletOf(t.wallets, u))
            && Sum(ledger, RefundCountOf(id)) == (if t.orders[id].status == Refunded && t.orders[id].user == u then 1 else 0)
  {
    GuardedRunIsShopRun(calls);
    RefundLaws.WalletsKeepBooks(WithoutRetries(calls), u);
    RefundLaws.RefundExactlyOnce(WithoutRetries(calls), id, u);
  }

  /** What each guarded route asks the shop for. */
  lemma CallsAskFor(u: nat, key: Option<string>, n: nat, reason: string, rest: Outside)
    ensures EventOf(Idempotency.Keyed(u, "wallet.deposit", key, DepositBody(n), rest)) == Shop.DepositMoney(u, n)
    ensures EventOf(Idempotency.Keyed(u, "wallet.admin_credit", key, AdjustBody(n, reason), rest)) == Shop.CreditByAdmin(rest.wallet, n)
    ensures EventOf(Idempotency.Keyed(u, "wallet.admin_debit", key, AdjustBody(n, reason), rest)) == Shop.DebitByAdmin(rest.wallet, n)
    ensures EventOf(Idempotency.Keyed(u, "payment.init", key, InitBody(n), rest)) == Shop.InitPayment(u, n, rest.gateway)
    ensures EventOf(Idempotency.Keyed(u, "order.checkout", key, CheckoutBody(reason), rest)) == Shop.Checkout(u)
    ensures forall q :: EventOf(Idempotency.Keyed(u, "cart.add_item", key, AddItemBody(n, q), rest)) == Shop.AddItem(u, n, q)
  {
  }

  // ---- What a replay answers ---------------------------------------------------------------

  /** What the caller asks for, whatever the gateway would answer. */
  function Asked(call: Call): Shop.Event {
    EventOf(call.(rest := call.rest.(gateway := Shop.NotConfigured)))
  }

  /**
   * A call under a committed key is replayed exactly if its body is the first one's. The replay answers the
   * same request if and only if the two calls also name the same wallet in their path, where they have one:
   * the guard never looks at it.
   */
  lemma ReplayAnswersSameRequestIff(calls: seq<Call>, j: nat, i: nat)
    requires j < i < |calls| && Idempotency.CommittedBefore(calls, Answers(calls), j, i)
    ensures Answers(calls)[i].Replayed? <==> calls[j].body == calls[i].body
    ensures Answers(calls)[i].Replayed? ==> Answers(calls)[i] == Idempotency.Replayed(Some(Answers(calls)[j].response))
    ensures Answers(calls)[i].Replayed? ==>
      (Asked(calls[i]) == Asked(calls[j]) <==> (calls[i].body.AdjustBody? ==> calls[i].rest.wallet == calls[j].rest.wallet))
  {
    Idempotency.AnswersOfARun(Serve, Shop.EMPTY_SHOP, calls, i);
    assert Idempotency.Answered(calls, Answers(calls), i);
  }

  function Credit(wallet: Shop.UserId): Call {
    Idempotency.Keyed(9, ADMIN_CREDIT, Some("k"), AdjustBody(50, "bonus"), Outside(wallet, Shop.NotConfigured))
  }

  lemma FirstCredit()
    ensures var db := Idempotency.Database(Shop.EMPTY_SHOP, map[]);
            Idempotency.Guarded(Serve, db, Credit(1)).1.Committed?
  {
    assert Shop.Transaction(Shop.EMPTY_SHOP, EventOf(Credit(1))).Some?;
  }

  /** An admin's credit to wallet 2 under a key used for wallet 1 is answered with wallet 1's, and credits nobody. */
  lemma CreditReplayedForOtherWallet()
    ensures var calls := [Credit(1)] + [Credit(2)];
            && Answers(calls)[0].Committed?
            && Answers(calls)[1] == Idempotency.Replayed(Some(Answers(calls)[0].response))
            && GuardedRun(calls) == GuardedRun([Credit(1)])
            && Asked(calls[1]) == Shop.CreditByAdmin(2, 50) != Asked(calls[0])
  {
    var db := Idempotency.Database(Shop.EMPTY_SHOP, map[]);
    var one, calls := [Credit(1)], [Credit(1)] + [Credit(2)];
    FirstCredit();
    assert calls[..1] == one && one[..0] == [];
    Idempotency.OutcomeAt(Serve, db, calls, 0);
    assert calls[..0] == [];
    ReplayAnswersSameRequestIff(calls, 0, 1);
    Idempotency.OutcomeAt(Serve, db, calls, 1);
  }
}
