/**
 * Callbacks for one payment, racing each other and every other route of the shop. The claim is an atomic
 * conditional update: it waits while another transaction holds the row, and matches only `initiated`.
 */
module CallbackRace {
  import opened Prelude
  import opened Shop
  import opened StockLaws
  import opened MoneyLaws

  type CallbackId = nat

  datatype Phase = Arrived | Claiming | Won(status: PaymentStatus) | Replayed(status: PaymentStatus) | RolledBack

  /** `shop` is what is committed; `log` lists the committed transactions in order. */
  datatype World = World(shop: Shop, holder: Option<CallbackId>, phases: map<CallbackId, Phase>, log: seq<Event>)

  datatype Action =
    | Claim(c: CallbackId)
    | Settle(c: CallbackId, gatewayOk: bool, verification: Verification)
    | Drop(c: CallbackId)
    | Other(e: Event)

  function Start(s: Shop): World {
    World(s, None, map[], [])
  }

  function PhaseOf(w: World, c: CallbackId): Phase {
    if c in w.phases then w.phases[c] else Arrived
  }

  /** The race for the payment at position `i`. */
  function Advance(i: nat, w: World, action: Action): World
    requires i < |w.shop.payments|
  {
    var payment := w.shop.payments[i];
    match action
    case Claim(c) =>
      if !PhaseOf(w, c).Arrived? || w.holder.Some? then w
      else if payment.status == Initiated then w.(holder := Some(c), phases := w.phases[c := Claiming])
      else w.(phases := w.phases[c := Replayed(payment.status)])
    case Settle(c, ok, v) =>
      if !PhaseOf(w, c).Claiming? then w
      else (match CallbackTx(w.shop, payment.authority, ok, v)
            case Some(t) =>
              World(t, None, w.phases[c := Won(if ok && v.Accepted? then Verified else Failed)],
                    w.log + [Callback(payment.authority, ok, v)])
            case None => w.(holder := None, phases := w.phases[c := RolledBack]))
    case Drop(c) =>
      if !PhaseOf(w, c).Claiming? then w
      else w.(holder := None, phases := w.phases[c := RolledBack])
    case Other(e) =>
      if e.Callback? && e.authority == payment.authority then w
      else w.(shop := Step(w.shop, e), log := w.log + [e])
  }

  /** One callback against the committed status of the payment. */
  predicate CallbackOk(status: PaymentStatus, w: World, c: CallbackId) {
    var p := PhaseOf(w, c);
    && (p.Claiming? <==> w.holder == Some(c))
    && (p.Won? ==> p.status == status && Final(status))
    && (p.Replayed? ==> p.status == status && Final(status))
  }

  ghost predicate RaceOk(status: PaymentStatus, w: World) {
    && (forall c :: CallbackOk(status, w, c))
    && (w.holder.Some? ==> status == Initiated)
    && (forall c, d :: PhaseOf(w, c).Won? && PhaseOf(w, d).Won? ==> c == d)
    && (Final(status) ==> exists c :: PhaseOf(w, c).Won?)
  }

  ghost predicate Inv(s: Shop, i: nat, w: World) {
    && WellFormed(w.shop) && PaymentsOk(w.shop)
    && i < |s.payments| && i < |w.shop.payments|
    && w.shop.payments[i].authority == s.payments[i].authority
    && w.shop == Run(s, w.log)
    && RaceOk(w.shop.payments[i].status, w)
  }

  lemma WinKeepsRace(status: PaymentStatus, final: PaymentStatus, w: World, w': World, c: CallbackId)
    requires RaceOk(status, w) && PhaseOf(w, c).Claiming? && Final(final)
    requires w'.holder == None && w'.phases == w.phases[c := Won(final)]
    ensures RaceOk(final, w')
  {
    assert CallbackOk(status, w, c);
    forall d ensures CallbackOk(final, w', d) && (d != c ==> !PhaseOf(w', d).Won?) {
      assert CallbackOk(status, w, d);
    }
    assert PhaseOf(w', c).Won?;
  }

  lemma DropKeepsRace(status: PaymentStatus, w: World, w': World, c: CallbackId)
    requires RaceOk(status, w) && PhaseOf(w, c).Claiming?
    requires w'.holder == None && w'.phases == w.phases[c := RolledBack]
    ensures RaceOk(status, w')
  {
    assert CallbackOk(status, w, c);
    forall d ensures CallbackOk(status, w', d) {
      assert CallbackOk(status, w, d);
    }
    assert forall d :: d != c ==> PhaseOf(w', d) == PhaseOf(w, d);
  }

  lemma ClaimKeepsRace(status: PaymentStatus, w: World, w': World, c: CallbackId)
    requires RaceOk(status, w) && PhaseOf(w, c).Arrived? && w.holder.None?
    requires status == Initiated || Final(status)
    requires if status == Initiated then w'.holder == Some(c) && w'.phases == w.phases[c := Claiming]
             else w'.holder == None && w'.phases == w.phases[c := Replayed(status)]
    ensures RaceOk(status, w')
  {
    forall d ensures CallbackOk(status, w', d) {
      assert CallbackOk(status, w, d);
    }
    assert forall d :: d != c ==> PhaseOf(w', d) == PhaseOf(w, d);
    if Final(status) {
      var d :| PhaseOf(w, d).Won?;
      assert PhaseOf(w', d).Won?;
    }
  }

  /** Other routes never touch this payment. */
  lemma OthersKeepPayment(s: Shop, i: nat, e: Event)
    requires WellFormed(s) && PaymentsOk(s) && i < |s.payments|
    requires !(e.Callback? && e.authority == s.payments[i].authority)
    ensures i < |Step(s, e).payments| && Step(s, e).payments[i] == s.payments[i]
  {
    var t := Step(s, e);
    PaymentsEvolve(s, e);
    if t.payments != s.payments && e.InitPayment? {
      assert t.payments[i] == t.payments[..|s.payments|][i];
    }
  }

  lemma CommittedNext(s: Shop, log: seq<Event>, e: Event)
    ensures Run(s, log + [e]) == Step(Run(s, log), e)
  {
    assert (log + [e])[..|log|] == log;
  }

  lemma OtherKeepsInv(s: Shop, i: nat, w: World, e: Event)
    requires Inv(s, i, w)
    ensures Inv(s, i, Advance(i, w, Other(e)))
  {
    var t := Advance(i, w, Other(e));
    if !(e.Callback? && e.authority == w.shop.payments[i].authority) {
      OthersKeepPayment(w.shop, i, e);
      StepKeepsWellFormed(w.shop, e);
      StepKeepsPayments(w.shop, e);
      CommittedNext(s, w.log, e);
      OtherKeepsRace(w.shop.payments[i].status, w, t);
    }
  }

  lemma OtherKeepsRace(status: PaymentStatus, w: World, w': World)
    requires RaceOk(status, w) && w'.holder == w.holder && w'.phases == w.phases
    ensures RaceOk(status, w')
  {
    assert forall c :: PhaseOf(w', c) == PhaseOf(w, c);
    forall c ensures CallbackOk(status, w', c) {
      assert CallbackOk(status, w, c);
    }
    if Final(status) {
      var d :| PhaseOf(w, d).Won?;
      assert PhaseOf(w', d).Won?;
    }
  }

  /** What a settling callback leaves in its payment. */
  lemma SettledPayment(s: Shop, i: nat, ok: bool, v: Verification)
    requires WellFormed(s) && PaymentsOk(s) && i < |s.payments| && s.payments[i].status == Initiated
    requires CallbackTx(s, s.payments[i].authority, ok, v).Some?
    ensures var t := CallbackTx(s, s.payments[i].authority, ok, v).value;
            && t == Step(s, Callback(s.payments[i].authority, ok, v))
            && WellFormed(t) && PaymentsOk(t)
            && t.payments == s.payments[i := s.payments[i].(status := if ok && v.Accepted? then Verified else Failed)]
  {
    var e := Callback(s.payments[i].authority, ok, v);
    AuthorityIsUnique(s.payments, i);
    StepKeepsWellFormed(s, e);
    StepKeepsPayments(s, e);
  }

  lemma StepKeepsInv(s: Shop, i: nat, w: World, action: Action)
    requires Inv(s, i, w)
    ensures Inv(s, i, Advance(i, w, action))
  {
    var payment, t := w.shop.payments[i], Advance(i, w, action);
    assert PaymentOk(payment, w.shop.orders);
    match action
    case Other(e) => OtherKeepsInv(s, i, w, e);
    case Claim(c) =>
      if PhaseOf(w, c).Arrived? && w.holder.None? {
        ClaimKeepsRace(payment.status, w, t, c);
      }
    case Drop(c) =>
      if PhaseOf(w, c).Claiming? {
        DropKeepsRace(payment.status, w, t, c);
      }
    case Settle(c, ok, v) =>
      if PhaseOf(w, c).Claiming? {
        assert CallbackOk(payment.status, w, c);
        if CallbackTx(w.shop, payment.authority, ok, v).Some? {
          SettledPayment(w.shop, i, ok, v);
          CommittedNext(s, w.log, Callback(payment.authority, ok, v));
          WinKeepsRace(payment.status, t.shop.payments[i].status, w, t, c);
        } else {
          DropKeepsRace(payment.status, w, t, c);
        }
      }
  }

  /** A run of the race; positions stay valid, so every prefix can be continued. */
  ghost predicate Reaches(s: Shop, i: nat, actions: seq<Action>, w: World)
    decreases |actions|
  {
    if actions == [] then w == Start(s)
    else exists u :: Reaches(s, i, actions[..|actions| - 1], u) && i < |u.shop.payments| && w == Advance(i, u, actions[|actions| - 1])
  }

  lemma {:induction false} RaceKeepsInv(s: Shop, i: nat, actions: seq<Action>, w: World)
    requires WellFormed(s) && PaymentsOk(s) && i < |s.payments| && s.payments[i].status == Initiated
    requires Reaches(s, i, actions, w)
    ensures Inv(s, i, w)
    decreases |actions|
  {
    if actions == [] {
      assert Run(s, []) == s;
      assert forall c :: PhaseOf(w, c) == Arrived;
    } else {
      var init := actions[..|actions| - 1];
      var u :| Reaches(s, i, init, u) && i < |u.shop.payments| && w == Advance(i, u, actions[|actions| - 1]);
      RaceKeepsInv(s, i, init, u);
      StepKeepsInv(s, i, u, actions[|actions| - 1]);
    }
  }

  /**
   * Over every interleaving: the committed tables are those of the logged transactions run serially; at
   * most one callback wins, one has won exactly when the payment is final, and all others see its outcome.
   */
  lemma OneCallbackWinsTheRace(s: Shop, i: nat, actions: seq<Action>, w: World, c: CallbackId, d: CallbackId)
    requires WellFormed(s) && PaymentsOk(s) && i < |s.payments| && s.payments[i].status == Initiated
    requires Reaches(s, i, actions, w)
    ensures i < |w.shop.payments| && w.shop == Run(s, w.log)
    ensures var status := w.shop.payments[i].status;
            && status != Claimed
            && (PhaseOf(w, c).Won? && PhaseOf(w, d).Won? ==> c == d)
            && (Final(status) <==> exists x :: PhaseOf(w, x).Won?)
            && (PhaseOf(w, c).Won? || PhaseOf(w, c).Replayed? ==> PhaseOf(w, c).status == status && Final(status))
  {
    RaceKeepsInv(s, i, actions, w);
    assert PaymentOk(w.shop.payments[i], w.shop.orders);
    assert CallbackOk(w.shop.payments[i].status, w, c);
    if x :| PhaseOf(w, x).Won? {
      assert CallbackOk(w.shop.payments[i].status, w, x);
    }
  }

  /** Once the payment is final, no callback for it changes a committed table any more. */
  lemma LateCallbacksChangeNothing(s: Shop, i: nat, actions: seq<Action>, w: World, action: Action)
    requires WellFormed(s) && PaymentsOk(s) && i < |s.payments| && s.payments[i].status == Initiated
    requires Reaches(s, i, actions, w) && !action.Other?
    ensures i < |w.shop.payments|
    ensures Final(w.shop.payments[i].status) ==> Advance(i, w, action).shop == w.shop && Advance(i, w, action).log == w.log
  {
    RaceKeepsInv(s, i, actions, w);
    assert CallbackOk(w.shop.payments[i].status, w, action.c);
  }
}
