/**
 * Settlements of several payments of one order, racing each other and every other move of the order. Each
 * callback has claimed its own payment; then it reads the order without a lock, and later commits its move
 * from the status it has read over whatever the status is by then.
 */
module OrderRace {
  import opened OrderGraph

  type CallbackId = nat

  datatype Phase = Claimed | Holding(seen: OrderStatus) | Settled | Undone

  /** `settled` lists the callbacks that committed; it is not a table. */
  datatype World = World(
    status: OrderStatus,
    history: seq<HistoryEntry>,
    phases: map<CallbackId, Phase>,
    settled: seq<CallbackId>)

  /** `Move` is an admin move or a cancel, as one serial step. */
  datatype Event =
    | Read(c: CallbackId)
    | Commit(c: CallbackId)
    | Crash(c: CallbackId)
    | Move(to: OrderStatus)

  /** What the gateway says of each payment; fixed for the run. */
  type Verdicts = CallbackId -> bool

  const START := World(AwaitingPayment, [HistoryEntry(Pending, AwaitingPayment)], map[], [])

  function PhaseOf(w: World, c: CallbackId): Phase {
    if c in w.phases then w.phases[c] else Claimed
  }

  function Target(accepted: Verdicts, c: CallbackId): OrderStatus {
    if accepted(c) then Paid else PaymentFailed
  }

  /** The callback is about to commit a move that was allowed when it read the order. */
  predicate Settles(accepted: Verdicts, w: World, e: Event) {
    e.Commit? && PhaseOf(w, e.c).Holding? && Allowed(PhaseOf(w, e.c).seen, Target(accepted, e.c))
  }

  function Step(accepted: Verdicts, w: World, e: Event): World {
    match e
    case Read(c) =>
      if !PhaseOf(w, c).Claimed? then w else w.(phases := w.phases[c := Holding(w.status)])
    case Commit(c) =>
      if Settles(accepted, w, e) then
        World(Target(accepted, c), w.history + [HistoryEntry(PhaseOf(w, c).seen, Target(accepted, c))],
              w.phases[c := Settled], w.settled + [c])
      else if PhaseOf(w, c).Holding? then w.(phases := w.phases[c := Undone])
      else w
    case Crash(c) =>
      if !PhaseOf(w, c).Holding? then w else w.(phases := w.phases[c := Undone])
    case Move(to) =>
      if !Allowed(w.status, to) then w
      else w.(status := to, history := w.history + [HistoryEntry(w.status, to)])
  }

  function Run(accepted: Verdicts, events: seq<Event>): World {
    if events == [] then START else Step(accepted, Run(accepted, events[..|events| - 1]), events[|events| - 1])
  }

  /** How many payments are verified. */
  function VerifiedCount(accepted: Verdicts, settled: seq<CallbackId>): nat {
    if settled == [] then 0
    else VerifiedCount(accepted, settled[..|settled| - 1]) + if accepted(settled[|settled| - 1]) then 1 else 0
  }

  // ---- When the history is a path ----------------------------------------------------------

  /** The status that the settlement has read is still the status: a conditional update would match. */
  predicate FreshSettlement(accepted: Verdicts, w: World, e: Event) {
    Settles(accepted, w, e) ==> PhaseOf(w, e.c).seen == w.status
  }

  predicate FreshSettlements(accepted: Verdicts, events: seq<Event>) {
    events == [] ||
    (FreshSettlements(accepted, events[..|events| - 1])
     && FreshSettlement(accepted, Run(accepted, events[..|events| - 1]), events[|events| - 1]))
  }

  predicate IsPath(w: World) {
    Chain(w.history, Pending, w.status)
  }

  /** The last history row always leads to the status. */
  predicate EndsInStatus(w: World) {
    w.history != [] && w.history[|w.history| - 1].to == w.status
  }

  lemma PathNext(h: seq<HistoryEntry>, status: OrderStatus, from: OrderStatus, to: OrderStatus)
    requires h != [] && h[|h| - 1].to == status && Allowed(from, to)
    ensures Chain(h + [HistoryEntry(from, to)], Pending, to) <==> from == status && Chain(h, Pending, status)
  {
    assert (h + [HistoryEntry(from, to)])[..|h|] == h;
  }

  lemma StepKeepsPathIff(accepted: Verdicts, w: World, e: Event, t: World)
    requires EndsInStatus(w) && t == Step(accepted, w, e)
    ensures EndsInStatus(t)
    ensures IsPath(t) <==> IsPath(w) && FreshSettlement(accepted, w, e)
  {
    if Settles(accepted, w, e) {
      PathNext(w.history, w.status, PhaseOf(w, e.c).seen, Target(accepted, e.c));
    } else if e.Move? && Allowed(w.status, e.to) {
      PathNext(w.history, w.status, w.status, e.to);
    }
  }

  lemma {:induction false} RunIsPathIff(accepted: Verdicts, events: seq<Event>)
    ensures EndsInStatus(Run(accepted, events))
    ensures IsPath(Run(accepted, events)) <==> FreshSettlements(accepted, events)
    decreases |events|
  {
    if events != [] {
      var init := events[..|events| - 1];
      RunIsPathIff(accepted, init);
      StepKeepsPathIff(accepted, Run(accepted, init), events[|events| - 1], Run(accepted, events));
    } else {
      assert START.history[..0] == [];
    }
  }

  // ---- When at most one payment is verified ------------------------------------------------

  lemma EntriesNext(h: seq<HistoryEntry>, e: HistoryEntry)
    ensures Entries(h + [e], Paid) == Entries(h, Paid) + if e.to == Paid then 1 else 0
  {
    assert (h + [e])[..|h|] == h;
  }

  lemma VerifiedNext(accepted: Verdicts, settled: seq<CallbackId>, c: CallbackId)
    ensures VerifiedCount(accepted, settled + [c]) == VerifiedCount(accepted, settled) + if accepted(c) then 1 else 0
  {
    assert (settled + [c])[..|settled|] == settled;
  }

  /** Every verified payment has left its own row in the history. */
  lemma {:induction false} VerifiedLeaveRows(accepted: Verdicts, events: seq<Event>)
    ensures VerifiedCount(accepted, Run(accepted, events).settled) <= Entries(Run(accepted, events).history, Paid)
    decreases |events|
  {
    if events != [] {
      var init, e := events[..|events| - 1], events[|events| - 1];
      VerifiedLeaveRows(accepted, init);
      var w := Run(accepted, init);
      if Settles(accepted, w, e) {
        EntriesNext(w.history, HistoryEntry(PhaseOf(w, e.c).seen, Target(accepted, e.c)));
        VerifiedNext(accepted, w.settled, e.c);
      } else if e.Move? && Allowed(w.status, e.to) {
        EntriesNext(w.history, HistoryEntry(w.status, e.to));
      }
    }
  }

  /**
   * Over every interleaving the history is a path if and only if every settlement found the status it had read;
   * and then at most one payment of the order is verified.
   */
  lemma PathIffSettlementsFresh(accepted: Verdicts, events: seq<Event>)
    ensures var w := Run(accepted, events);
            && (Chain(w.history, Pending, w.status) <==> FreshSettlements(accepted, events))
            && (FreshSettlements(accepted, events) ==> VerifiedCount(accepted, w.settled) <= 1)
  {
    RunIsPathIff(accepted, events);
    VerifiedLeaveRows(accepted, events);
    if FreshSettlements(accepted, events) {
      PaidOnce(Run(accepted, events).history, Run(accepted, events).status);
    }
  }

  /** The order awaits payment until the first accepted callback settles, then it is paid. */
  predicate PaidByFirst(accepted: Verdicts, w: World) {
    w.status == if VerifiedCount(accepted, w.settled) == 0 then AwaitingPayment else Paid
  }

  /** Only from `awaiting_payment` can an order be paid. */
  lemma PaidFromAwaiting(from: OrderStatus)
    ensures Allowed(from, Paid) <==> from == AwaitingPayment
  {
  }

  lemma AcceptedStep(accepted: Verdicts, w: World, e: Event, t: World)
    requires (forall c :: accepted(c)) && !e.Move? && PaidByFirst(accepted, w) && t == Step(accepted, w, e)
    ensures PaidByFirst(accepted, t)
    ensures var n := VerifiedCount(accepted, w.settled);
            && VerifiedCount(accepted, t.settled) == n + (if Settles(accepted, w, e) then 1 else 0)
            && (FreshSettlement(accepted, w, e) <==> !Settles(accepted, w, e) || n == 0)
  {
    if Settles(accepted, w, e) {
      assert accepted(e.c);
      PaidFromAwaiting(PhaseOf(w, e.c).seen);
      VerifiedNext(accepted, w.settled, e.c);
      assert t.settled == w.settled + [e.c] && t.status == Paid;
    } else {
      assert t.settled == w.settled && t.status == w.status;
    }
  }

  lemma {:induction false} AcceptedRace(accepted: Verdicts, events: seq<Event>)
    requires forall c :: accepted(c)
    requires forall i :: 0 <= i < |events| ==> !events[i].Move?
    ensures PaidByFirst(accepted, Run(accepted, events))
    ensures FreshSettlements(accepted, events) <==> VerifiedCount(accepted, Run(accepted, events).settled) <= 1
    decreases |events|
  {
    if events != [] {
      var init := events[..|events| - 1];
      assert forall i :: 0 <= i < |init| ==> init[i] == events[i];
      AcceptedRace(accepted, init);
      AcceptedStep(accepted, Run(accepted, init), events[|events| - 1], Run(accepted, events));
    }
  }

  /** Among accepted callbacks alone, at most one payment is verified if and only if no settlement was overtaken. */
  lemma OneVerifiedIffSettlementsFresh(accepted: Verdicts, events: seq<Event>)
    requires forall c :: accepted(c)
    requires forall i :: 0 <= i < |events| ==> !events[i].Move?
    ensures VerifiedCount(accepted, Run(accepted, events).settled) <= 1 <==> FreshSettlements(accepted, events)
  {
    AcceptedRace(accepted, events);
  }

  // ---- Two verified payments ---------------------------------------------------------------

  function AllAccepted(): Verdicts {
    (c: CallbackId) => true
  }

  const BOTH_READ := START.(phases := map[1 := Holding(AwaitingPayment), 2 := Holding(AwaitingPayment)])

  lemma RunNext(accepted: Verdicts, events: seq<Event>, e: Event)
    ensures Run(accepted, events + [e]) == Step(accepted, Run(accepted, events), e)
  {
    assert (events + [e])[..|events|] == events;
  }

  /** Both callbacks read the order before either commits: two verified payments, and an order paid twice. */
  lemma TwoPaymentsVerified()
    ensures var w := Run(AllAccepted(), [] + [Read(1)] + [Read(2)] + [Commit(1)] + [Commit(2)]);
            && w.settled == [1, 2] && VerifiedCount(AllAccepted(), w.settled) == 2
            && w.status == Paid && Entries(w.history, Paid) == 2
  {
    var accepted := AllAccepted();
    RunNext(accepted, [], Read(1));
    RunNext(accepted, [] + [Read(1)], Read(2));
    RunNext(accepted, [] + [Read(1)] + [Read(2)], Commit(1));
    RunNext(accepted, [] + [Read(1)] + [Read(2)] + [Commit(1)], Commit(2));
    assert Step(accepted, Step(accepted, START, Read(1)), Read(2)) == BOTH_READ;
    VerifiedNext(accepted, [], 1);
    VerifiedNext(accepted, [] + [1], 2);
    assert [] + [1] + [2] == [1, 2];
    EntriesNext(START.history, HistoryEntry(AwaitingPayment, Paid));
    EntriesNext(START.history + [HistoryEntry(AwaitingPayment, Paid)], HistoryEntry(AwaitingPayment, Paid));
  }
}
