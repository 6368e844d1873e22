/** Wallets over every run of the shop: what each request does to a ledger, and what the balance therefore is. */
module BalanceLaws {
  import opened Prelude
  import opened OrderGraph
  import opened Ledger
  import opened Shop
  import opened RefundLaws

  /** What a committed request posts to the ledger of `u`. */
  function PostingOf(s: Shop, e: Event, u: UserId): seq<Posting> {
    if Transaction(s, e).None? then []
    else match e
      case DepositMoney(v, n) => if v == u then [Posting(Deposit, n, None)] else []
      case CreditByAdmin(v, n) => if v == u then [Posting(AdminCredit, n, None)] else []
      case DebitByAdmin(v, n) => if v == u then [Posting(AdminDebit, n, None)] else []
      case UpdateStatus(id, to) =>
        if to == Refunded && id < |s.orders| && s.orders[id].user == u
        then [Posting(Refund, s.orders[id].total, Some(id))]
        else []
      case _ => []
  }

  function PostingsOfRun(events: seq<Event>, u: UserId): seq<Posting> {
    if events == [] then []
    else
      var init := events[..|events| - 1];
      PostingsOfRun(init, u) + PostingOf(Run(EMPTY_SHOP, init), events[|events| - 1], u)
  }

  /** What a committed request moves in the wallet of `u`. */
  function MoneyOf(s: Shop, e: Event, u: UserId): int {
    if Transaction(s, e).None? then 0
    else match e
      case DepositMoney(v, n) => if v == u then n else 0
      case CreditByAdmin(v, n) => if v == u then n else 0
      case DebitByAdmin(v, n) => if v == u then 0 - n else 0
      case UpdateStatus(id, to) =>
        if to == Refunded && id < |s.orders| && s.orders[id].user == u then s.orders[id].total else 0
      case _ => 0
  }

  /** What the committed requests of a run moved into the wallet of `u`, less what they took out. */
  function MoneyMoved(events: seq<Event>, u: UserId): int {
    if events == [] then 0
    else
      var init := events[..|events| - 1];
      MoneyMoved(init, u) + MoneyOf(Run(EMPTY_SHOP, init), events[|events| - 1], u)
  }

  /** One posting, or none, and the balance that goes with it. */
  predicate WalletMoves(w: Wallet, w': Wallet, posting: seq<Posting>, amount: int) {
    w'.balance == w.balance + amount && Postings(w'.ledger) == Postings(w.ledger) + posting
  }

  lemma PostingMoves(w: Wallet, w': Wallet, kind: EntryKind, amount: nat, order: Option<nat>)
    requires WellKept(w) && Posted(w, kind, amount, order) == Some(w')
    ensures WalletMoves(w, w', [Posting(kind, amount, order)],
                        if kind in {PurchaseDebit, AdminDebit} then 0 - amount else amount)
  {
    PostedByKind(w, kind, amount, order);
    PostingsNext(w.ledger, w'.ledger[|w.ledger|]);
  }

  lemma NothingMoves(w: Wallet)
    ensures WalletMoves(w, w, [], 0)
  {
    assert Postings(w.ledger) + [] == Postings(w.ledger);
  }

  /** The wallet of `u` moves as the request says. */
  predicate MovesMoney(s: Shop, e: Event, t: Shop, u: UserId) {
    WalletMoves(WalletOf(s.wallets, u), WalletOf(t.wallets, u), PostingOf(s, e, u), MoneyOf(s, e, u))
  }

  lemma PostMovesMoney(s: Shop, e: Event, t: Shop, u: UserId)
    requires WellKept(WalletOf(s.wallets, u)) && Transaction(s, e) == Some(t) && PostsMoney(e)
    ensures MovesMoney(s, e, t, u)
  {
    var w, w' := WalletOf(s.wallets, u), WalletOf(t.wallets, u);
    NothingMoves(w);
    if e.user == u {
      match e
      case DepositMoney(_, n) => PostingMoves(w, w', Deposit, n, None);
      case CreditByAdmin(_, n) => PostingMoves(w, w', AdminCredit, n, None);
      case DebitByAdmin(_, n) => PostingMoves(w, w', AdminDebit, n, None);
    }
  }

  lemma RefundMovesMoney(s: Shop, e: Event, t: Shop, u: UserId)
    requires WellKept(WalletOf(s.wallets, u)) && Transaction(s, e) == Some(t) && IsRefund(s, e)
    ensures MovesMoney(s, e, t, u)
  {
    NothingMoves(WalletOf(s.wallets, u));
    RefundIs(s, e.order);
    if s.orders[e.order].user == u {
      PostingMoves(WalletOf(s.wallets, u), WalletOf(t.wallets, u), Refund, s.orders[e.order].total, Some(e.order));
    }
  }

  lemma StepMovesMoney(s: Shop, e: Event, t: Shop, u: UserId)
    requires WellKept(WalletOf(s.wallets, u)) && t == Step(s, e)
    ensures MovesMoney(s, e, t, u)
  {
    if Transaction(s, e).None? {
      NothingMoves(WalletOf(s.wallets, u));
    } else if PostsMoney(e) {
      PostMovesMoney(s, e, t, u);
    } else if IsRefund(s, e) {
      RefundMovesMoney(s, e, t, u);
    } else {
      WalletsEvolve(s, e, u);
      NothingMoves(WalletOf(s.wallets, u));
    }
  }

  /**
   * In every run from an empty shop: the ledger lists the committed deposits, credits, debits and refunds of the
   * user in order, and the balance is what they moved in less what they took out.
   */
  lemma {:induction false} BalanceIsMoneyMoved(events: seq<Event>, u: UserId)
    ensures var w := WalletOf(Run(EMPTY_SHOP, events).wallets, u);
            w.balance == MoneyMoved(events, u) && Postings(w.ledger) == PostingsOfRun(events, u)
    decreases |events|
  {
    if events != [] {
      var init := events[..|events| - 1];
      BalanceIsMoneyMoved(init, u);
      WalletsKeepBooks(init, u);
      StepMovesMoney(Run(EMPTY_SHOP, init), events[|events| - 1], Run(EMPTY_SHOP, events), u);
    }
  }

  /** In every run: money comes in whenever it is not nothing, and a debit goes out exactly if the balance covers it. */
  lemma MoneyGoesIff(events: seq<Event>, u: UserId, n: nat)
    ensures var s := Run(EMPTY_SHOP, events);
            && (Transaction(s, DepositMoney(u, n)).Some? <==> 0 < n)
            && (Transaction(s, CreditByAdmin(u, n)).Some? <==> 0 < n)
            && (Transaction(s, DebitByAdmin(u, n)).Some? <==> 0 < n <= MoneyMoved(events, u))
  {
    BalanceIsMoneyMoved(events, u);
    WalletsKeepBooks(events, u);
    PostingGoesIff(Run(EMPTY_SHOP, events), u, n);
  }

  lemma PostingGoesIff(s: Shop, u: UserId, n: nat)
    requires 0 <= WalletOf(s.wallets, u).balance
    ensures Transaction(s, DepositMoney(u, n)).Some? <==> 0 < n
    ensures Transaction(s, CreditByAdmin(u, n)).Some? <==> 0 < n
    ensures Transaction(s, DebitByAdmin(u, n)).Some? <==> 0 < n <= WalletOf(s.wallets, u).balance
  {
    var w := WalletOf(s.wallets, u);
    PostedByKind(w, Deposit, n, None);
    PostedByKind(w, AdminCredit, n, None);
    PostedByKind(w, AdminDebit, n, None);
  }
}
