/** The wallet ledger: a cached balance beside an append-only list of entries. */
module Ledger {
  import opened Prelude
  import opened Sums

  datatype EntryKind = Deposit | PurchaseDebit | Refund | AdminCredit | AdminDebit

  /** `CREDIT_TYPES`: the kinds that raise the balance. */
  predicate IsCredit(kind: EntryKind) {
    kind in {Deposit, Refund, AdminCredit}
  }

  /** `order` is the reference of a refund. */
  datatype Entry = Entry(kind: EntryKind, amount: nat, balanceAfter: int, order: Option<nat>)

  datatype Wallet = Wallet(balance: int, ledger: seq<Entry>)

  const NEW_WALLET := Wallet(0, [])

  /** A user without a wallet gets an empty one with the first change. */
  function WalletOf(wallets: map<nat, Wallet>, user: nat): Wallet {
    if user in wallets then wallets[user] else NEW_WALLET
  }

  function Signed(kind: EntryKind, amount: nat): int {
    if IsCredit(kind) then amount else 0 - (amount as int)
  }

  function SignedAmount(): Entry -> int {
    (e: Entry) => Signed(e.kind, e.amount)
  }

  /** What the ledger says the balance is. */
  function LedgerBalance(ledger: seq<Entry>): int {
    Sum(ledger, SignedAmount())
  }

  /** Entry `i` records the balance behind it, and that balance is not negative. */
  predicate EntryOk(ledger: seq<Entry>, i: nat)
    requires i < |ledger|
  {
    0 <= ledger[i].balanceAfter == LedgerBalance(ledger[..i + 1])
  }

  /** The balance is the ledger's, every entry records the balance behind it, and no prefix is overdrawn. */
  ghost predicate WellKept(w: Wallet) {
    && w.balance == LedgerBalance(w.ledger)
    && 0 <= w.balance
    && forall i :: 0 <= i < |w.ledger| ==> EntryOk(w.ledger, i)
  }

  /** One balance change; `None` when it would overdraw the wallet. */
  function Posted(w: Wallet, kind: EntryKind, amount: nat, order: Option<nat>): Option<Wallet> {
    var balance := w.balance + Signed(kind, amount);
    if balance < 0 then None
    else Some(Wallet(balance, w.ledger + [Entry(kind, amount, balance, order)]))
  }

  lemma EntryStaysOk(ledger: seq<Entry>, e: Entry, i: nat)
    requires i < |ledger| && EntryOk(ledger, i)
    ensures EntryOk(ledger + [e], i)
  {
    assert (ledger + [e])[..i + 1] == ledger[..i + 1];
  }

  lemma NewEntryOk(ledger: seq<Entry>, e: Entry)
    requires 0 <= e.balanceAfter == LedgerBalance(ledger) + Signed(e.kind, e.amount)
    ensures EntryOk(ledger + [e], |ledger|) && LedgerBalance(ledger + [e]) == e.balanceAfter
  {
    SumSnoc(ledger, e, SignedAmount());
    assert (ledger + [e])[..|ledger| + 1] == ledger + [e];
  }

  lemma PostedKeepsBooks(w: Wallet, kind: EntryKind, amount: nat, order: Option<nat>)
    requires WellKept(w)
    ensures var p := Posted(w, kind, amount, order);
            && (p.Some? <==> IsCredit(kind) || amount <= w.balance)
            && (p.Some? ==> WellKept(p.value) && w.ledger <= p.value.ledger)
  {
    var e := Entry(kind, amount, w.balance + Signed(kind, amount), order);
    if 0 <= e.balanceAfter {
      NewEntryOk(w.ledger, e);
      forall i | 0 <= i < |w.ledger| ensures EntryOk(w.ledger + [e], i) {
        EntryStaysOk(w.ledger, e, i);
      }
    }
  }

  /** Deposits, refunds and admin credits always go through and raise the balance; debits only if covered, and lower it. */
  lemma PostedByKind(w: Wallet, kind: EntryKind, amount: nat, order: Option<nat>)
    requires 0 <= w.balance
    ensures kind in {Deposit, Refund, AdminCredit} ==>
      Posted(w, kind, amount, order)
        == Some(Wallet(w.balance + amount, w.ledger + [Entry(kind, amount, w.balance + amount, order)]))
    ensures kind in {PurchaseDebit, AdminDebit} ==>
      Posted(w, kind, amount, order)
        == if amount <= w.balance
           then Some(Wallet(w.balance - amount, w.ledger + [Entry(kind, amount, w.balance - amount, order)]))
           else None
  {
  }

  /** The amounts of the entries of some kinds. */
  function AmountOf(kinds: set<EntryKind>): Entry -> int {
    (e: Entry) => if e.kind in kinds then e.amount else 0
  }

  /** A kept balance is what came in by deposits, refunds and admin credits, less what went out by debits. */
  lemma BalanceByKind(w: Wallet)
    requires WellKept(w)
    ensures w.balance == Sum(w.ledger, AmountOf({Deposit, Refund, AdminCredit})) - Sum(w.ledger, AmountOf({PurchaseDebit, AdminDebit}))
  {
    SumsByKind(w.ledger);
  }

  lemma {:induction false} SumsByKind(ledger: seq<Entry>)
    ensures LedgerBalance(ledger)
         == Sum(ledger, AmountOf({Deposit, Refund, AdminCredit})) - Sum(ledger, AmountOf({PurchaseDebit, AdminDebit}))
    decreases |ledger|
  {
    if ledger != [] {
      var init, e := ledger[..|ledger| - 1], ledger[|ledger| - 1];
      SumsByKind(init);
      assert ledger == init + [e];
      SumSnoc(init, e, SignedAmount());
      SumSnoc(init, e, AmountOf({Deposit, Refund, AdminCredit}));
      SumSnoc(init, e, AmountOf({PurchaseDebit, AdminDebit}));
      match e.kind
      case Deposit =>
      case Refund =>
      case AdminCredit =>
      case PurchaseDebit =>
      case AdminDebit =>
    }
  }

  /** An entry without its running balance. */
  datatype Posting = Posting(kind: EntryKind, amount: nat, order: Option<nat>)

  function Postings(ledger: seq<Entry>): seq<Posting> {
    seq(|ledger|, i requires 0 <= i < |ledger| => Posting(ledger[i].kind, ledger[i].amount, ledger[i].order))
  }

  lemma PostingsNext(ledger: seq<Entry>, e: Entry)
    ensures Postings(ledger + [e]) == Postings(ledger) + [Posting(e.kind, e.amount, e.order)]
  {
  }

  /** What the ledger paid back for one order. */
  function RefundOf(order: nat): Entry -> int {
    (e: Entry) => if e.kind == Refund && e.order == Some(order) then e.amount else 0
  }

  /** How many times it did. */
  function RefundCountOf(order: nat): Entry -> int {
    (e: Entry) => if e.kind == Refund && e.order == Some(order) then 1 else 0
  }

  /** All refunds of a wallet. */
  function AnyRefund(): Entry -> int {
    (e: Entry) => if e.kind == Refund then e.amount else 0
  }
}
