/**
 * Wallet changes under interleaving: any number of requests read the wallet, lock its row, stage a balance
 * with its ledger entry, and commit or roll back. The session may keep the balance of its first, unlocked
 * read when the locked row arrives; the laws say when that does no harm.
 */
module WalletRace {
  import opened Prelude
  import opened Sums
  import opened Ledger

  type RequestId = nat
  type UserId = nat

  datatype Change = Change(user: UserId, kind: EntryKind, amount: nat, order: Option<nat>)

  /** `seen` is the balance that the session holds for the wallet. */
  datatype Phase =
    | Waiting
    | Peeked(seen: int)
    | Locked(seen: int)
    | Staged(entry: Entry)
    | Done
    | RolledBack

  datatype World = World(
    wallets: map<UserId, Wallet>,
    locks: map<UserId, RequestId>,
    phases: map<RequestId, Phase>,
    commits: seq<RequestId>)

  /** `refreshed`: the locked row replaces what the session has read before. */
  datatype Event =
    | Peek(r: RequestId)
    | Lock(r: RequestId, refreshed: bool)
    | Write(r: RequestId)
    | Commit(r: RequestId)
    | Crash(r: RequestId)

  const START := World(map[], map[], map[], [])

  function PhaseOf(w: World, r: RequestId): Phase {
    if r in w.phases then w.phases[r] else Waiting
  }

  predicate Holds(p: Phase) {
    p.Locked? || p.Staged?
  }

  /** The ledger rows are inserted, the balance is overwritten. */
  function Committed(wallet: Wallet, entry: Entry): Wallet {
    Wallet(entry.balanceAfter, wallet.ledger + [entry])
  }

  function Step(reqs: RequestId -> Change, w: World, e: Event): World {
    var c, p := reqs(e.r), PhaseOf(w, e.r);
    var current := WalletOf(w.wallets, c.user);
    match e
    case Peek(r) =>
      if !p.Waiting? then w else w.(phases := w.phases[r := Peeked(current.balance)])
    case Lock(r, refreshed) =>
      if !p.Peeked? || c.user in w.locks then w
      else w.(locks := w.locks[c.user := r],
              phases := w.phases[r := Locked(if refreshed then current.balance else p.seen)])
    case Write(r) =>
      if !p.Locked? then w
      else
        var balance := p.seen + Signed(c.kind, c.amount);
        if balance < 0 then w.(locks := w.locks - {c.user}, phases := w.phases[r := RolledBack])
        else w.(phases := w.phases[r := Staged(Entry(c.kind, c.amount, balance, c.order))])
    case Commit(r) =>
      if !p.Staged? then w
      else World(w.wallets[c.user := Committed(current, p.entry)], w.locks - {c.user}, w.phases[r := Done], w.commits + [r])
    case Crash(r) =>
      if Holds(p) then w.(locks := w.locks - {c.user}, phases := w.phases[r := RolledBack])
      else if p.Peeked? then w.(phases := w.phases[r := RolledBack])
      else w
  }

  function Run(reqs: RequestId -> Change, events: seq<Event>): World {
    if events == [] then START else Step(reqs, Run(reqs, events[..|events| - 1]), events[|events| - 1])
  }

  /** The same changes one after the other, in the order of their commits. */
  function Serial(reqs: RequestId -> Change, commits: seq<RequestId>): map<UserId, Wallet> {
    if commits == [] then map[]
    else
      var before, c := Serial(reqs, commits[..|commits| - 1]), reqs(commits[|commits| - 1]);
      match Posted(WalletOf(before, c.user), c.kind, c.amount, c.order)
      case Some(next) => before[c.user := next]
      case None => before
  }

  // ---- Locks -------------------------------------------------------------------------------

  ghost predicate RequestOk(reqs: RequestId -> Change, w: World, r: RequestId) {
    var c, p := reqs(r), PhaseOf(w, r);
    && (Holds(p) ==> c.user in w.locks && w.locks[c.user] == r)
    && (p.Staged? ==> 0 <= p.entry.balanceAfter && p.entry == Entry(c.kind, c.amount, p.entry.balanceAfter, c.order))
    && (r in w.commits <==> p.Done?)
  }

  ghost predicate Inv(reqs: RequestId -> Change, w: World) {
    && (forall r :: RequestOk(reqs, w, r))
    && (forall u :: u in w.locks ==> reqs(w.locks[u]).user == u && Holds(PhaseOf(w, w.locks[u])))
    && Distinct(w.commits)
  }

  lemma StepKeepsRequest(reqs: RequestId -> Change, w: World, e: Event, r: RequestId)
    requires Inv(reqs, w)
    ensures RequestOk(reqs, Step(reqs, w, e), r)
  {
    assert RequestOk(reqs, w, e.r);
    assert RequestOk(reqs, w, r);
  }

  lemma StepKeepsInv(reqs: RequestId -> Change, w: World, e: Event)
    requires Inv(reqs, w)
    ensures Inv(reqs, Step(reqs, w, e))
  {
    forall r ensures RequestOk(reqs, Step(reqs, w, e), r) {
      StepKeepsRequest(reqs, w, e, r);
    }
    assert RequestOk(reqs, w, e.r);
  }

  lemma {:induction false} RunKeepsInv(reqs: RequestId -> Change, events: seq<Event>)
    ensures Inv(reqs, Run(reqs, events))
    decreases |events|
  {
    if events != [] {
      RunKeepsInv(reqs, events[..|events| - 1]);
      StepKeepsInv(reqs, Run(reqs, events[..|events| - 1]), events[|events| - 1]);
    }
  }

  /** Two requests never hold the same wallet. */
  lemma OneHolderPerWallet(reqs: RequestId -> Change, events: seq<Event>, r: RequestId, q: RequestId)
    requires r != q && reqs(r).user == reqs(q).user
    ensures !(Holds(PhaseOf(Run(reqs, events), r)) && Holds(PhaseOf(Run(reqs, events), q)))
  {
    RunKeepsInv(reqs, events);
    assert RequestOk(reqs, Run(reqs, events), r) && RequestOk(reqs, Run(reqs, events), q);
  }

  // ---- What is committed -------------------------------------------------------------------

  /** A committed ledger only grows, whatever the sessions have read. */
  lemma LedgersOnlyGrow(reqs: RequestId -> Change, w: World, e: Event, u: UserId)
    ensures WalletOf(w.wallets, u).ledger <= WalletOf(Step(reqs, w, e).wallets, u).ledger
  {
  }

  /** What the committed requests of `u` asked for, in commit order. */
  function CommittedPostings(reqs: RequestId -> Change, commits: seq<RequestId>, u: UserId): seq<Posting> {
    if commits == [] then []
    else
      var c := reqs(commits[|commits| - 1]);
      CommittedPostings(reqs, commits[..|commits| - 1], u) +
      if c.user == u then [Posting(c.kind, c.amount, c.order)] else []
  }

  lemma CommittedNext(reqs: RequestId -> Change, commits: seq<RequestId>, r: RequestId, u: UserId)
    ensures CommittedPostings(reqs, commits + [r], u)
         == if reqs(r).user == u
            then CommittedPostings(reqs, commits, u) + [Posting(reqs(r).kind, reqs(r).amount, reqs(r).order)]
            else CommittedPostings(reqs, commits, u)
  {
    assert (commits + [r])[..|commits|] == commits;
  }

  /** No committed entry is lost: every ledger lists exactly the committed changes, in commit order. */
  lemma {:induction false} NoEntryIsLost(reqs: RequestId -> Change, events: seq<Event>, u: UserId)
    ensures var w := Run(reqs, events);
            Postings(WalletOf(w.wallets, u).ledger) == CommittedPostings(reqs, w.commits, u) && Distinct(w.commits)
    decreases |events|
  {
    RunKeepsInv(reqs, events);
    if events != [] {
      var init := events[..|events| - 1];
      NoEntryIsLost(reqs, init, u);
      RunKeepsInv(reqs, init);
      StepLosesNoEntry(reqs, Run(reqs, init), events[|events| - 1], Run(reqs, events), u);
    }
  }

  lemma StepLosesNoEntry(reqs: RequestId -> Change, w: World, e: Event, t: World, u: UserId)
    requires Inv(reqs, w) && t == Step(reqs, w, e)
    requires Postings(WalletOf(w.wallets, u).ledger) == CommittedPostings(reqs, w.commits, u)
    ensures Postings(WalletOf(t.wallets, u).ledger) == CommittedPostings(reqs, t.commits, u)
  {
    if e.Commit? && PhaseOf(w, e.r).Staged? {
      assert RequestOk(reqs, w, e.r);
      CommittedNext(reqs, w.commits, e.r, u);
      PostingsNext(WalletOf(w.wallets, u).ledger, PhaseOf(w, e.r).entry);
    }
  }

  // ---- Fresh reads -------------------------------------------------------------------------

  /** A commit whose balance was computed from the current one. */
  predicate FreshCommit(reqs: RequestId -> Change, w: World, e: Event) {
    var c, p := reqs(e.r), PhaseOf(w, e.r);
    e.Commit? && p.Staged? ==> p.entry.balanceAfter == WalletOf(w.wallets, c.user).balance + Signed(c.kind, c.amount)
  }

  ghost predicate FreshCommits(reqs: RequestId -> Change, events: seq<Event>) {
    events == [] ||
    (FreshCommits(reqs, events[..|events| - 1]) && FreshCommit(reqs, Run(reqs, events[..|events| - 1]), events[|events| - 1]))
  }

  /** A lock after which the session holds the current balance: refreshed by it, or not overtaken before it. */
  predicate FreshLock(reqs: RequestId -> Change, w: World, e: Event) {
    var c, p := reqs(e.r), PhaseOf(w, e.r);
    e.Lock? && p.Peeked? && c.user !in w.locks ==> e.refreshed || p.seen == WalletOf(w.wallets, c.user).balance
  }

  ghost predicate FreshLocks(reqs: RequestId -> Change, events: seq<Event>) {
    events == [] ||
    (FreshLocks(reqs, events[..|events| - 1]) && FreshLock(reqs, Run(reqs, events[..|events| - 1]), events[|events| - 1]))
  }

  /** What the holder of a wallet has read is still the balance. */
  ghost predicate HolderFresh(reqs: RequestId -> Change, w: World, r: RequestId) {
    var c, p := reqs(r), PhaseOf(w, r);
    var balance := WalletOf(w.wallets, c.user).balance;
    && (p.Locked? ==> p.seen == balance)
    && (p.Staged? ==> p.entry.balanceAfter == balance + Signed(c.kind, c.amount))
  }

  /** Request `r` did not take its lock on a stale read. */
  ghost predicate LockedFresh(reqs: RequestId -> Change, events: seq<Event>, r: RequestId) {
    events == [] ||
    var init, e := events[..|events| - 1], events[|events| - 1];
    LockedFresh(reqs, init, r) && (e.r == r ==> FreshLock(reqs, Run(reqs, init), e))
  }

  /** Until `r` holds its wallet there is nothing to be stale; while it does, what it read is current iff its lock was fresh. */
  ghost predicate FreshIffLockedFresh(reqs: RequestId -> Change, w: World, r: RequestId, lockedFresh: bool) {
    var p := PhaseOf(w, r);
    && (p.Waiting? || p.Peeked? ==> lockedFresh)
    && (Holds(p) ==> (HolderFresh(reqs, w, r) <==> lockedFresh))
  }

  /** The owner's own step: only a lock can be stale. */
  lemma OwnStep(reqs: RequestId -> Change, w: World, e: Event, lockedFresh: bool)
    requires Inv(reqs, w) && FreshIffLockedFresh(reqs, w, e.r, lockedFresh)
    ensures FreshIffLockedFresh(reqs, Step(reqs, w, e), e.r, lockedFresh && FreshLock(reqs, w, e))
  {
  }

  /** Nobody else moves the balance of a wallet that `r` holds. */
  lemma OthersStep(reqs: RequestId -> Change, w: World, e: Event, r: RequestId, lockedFresh: bool)
    requires Inv(reqs, w) && e.r != r && FreshIffLockedFresh(reqs, w, r, lockedFresh)
    ensures FreshIffLockedFresh(reqs, Step(reqs, w, e), r, lockedFresh)
  {
    assert RequestOk(reqs, w, e.r) && RequestOk(reqs, w, r);
  }

  lemma {:induction false} HolderFreshIff(reqs: RequestId -> Change, events: seq<Event>, r: RequestId)
    ensures FreshIffLockedFresh(reqs, Run(reqs, events), r, LockedFresh(reqs, events, r))
    decreases |events|
  {
    if events != [] {
      var init, e := events[..|events| - 1], events[|events| - 1];
      HolderFreshIff(reqs, init, r);
      RunKeepsInv(reqs, init);
      if e.r == r {
        OwnStep(reqs, Run(reqs, init), e, LockedFresh(reqs, init, r));
      } else {
        OthersStep(reqs, Run(reqs, init), e, r, LockedFresh(reqs, init, r));
      }
    }
  }

  /** A commit is fresh exactly if the lock it was made under was. */
  lemma CommitFreshIff(reqs: RequestId -> Change, events: seq<Event>, e: Event)
    requires e.Commit? && PhaseOf(Run(reqs, events), e.r).Staged?
    ensures FreshCommit(reqs, Run(reqs, events), e) <==> LockedFresh(reqs, events, e.r)
  {
    HolderFreshIff(reqs, events, e.r);
  }

  /** The last event takes no lock for a committed request. */
  lemma CommittedLocksStand(reqs: RequestId -> Change, events: seq<Event>, r: RequestId)
    requires events != [] && r in Run(reqs, events).commits
    ensures LockedFresh(reqs, events, r) <==> LockedFresh(reqs, events[..|events| - 1], r)
  {
    var init, e := events[..|events| - 1], events[|events| - 1];
    RunKeepsInv(reqs, init);
    assert RequestOk(reqs, Run(reqs, init), r) && RequestOk(reqs, Run(reqs, init), e.r);
  }

  /** Every committed request took its lock with the current balance. */
  ghost predicate CommittedLocksFresh(reqs: RequestId -> Change, events: seq<Event>) {
    forall r :: r in Run(reqs, events).commits ==> LockedFresh(reqs, events, r)
  }

  lemma CommittedLocksNext(reqs: RequestId -> Change, events: seq<Event>)
    requires events != []
    ensures var init, e := events[..|events| - 1], events[|events| - 1];
            CommittedLocksFresh(reqs, events) <==> CommittedLocksFresh(reqs, init) && FreshCommit(reqs, Run(reqs, init), e)
  {
    var init, e := events[..|events| - 1], events[|events| - 1];
    var w, t := Run(reqs, init), Run(reqs, events);
    forall r | r in t.commits ensures LockedFresh(reqs, events, r) <==> LockedFresh(reqs, init, r) {
      CommittedLocksStand(reqs, events, r);
    }
    if e.Commit? && PhaseOf(w, e.r).Staged? {
      assert t.commits == w.commits + [e.r];
      assert forall r :: r in t.commits <==> r in w.commits || r == e.r;
      CommitFreshIff(reqs, init, e);
    } else {
      assert t.commits == w.commits && FreshCommit(reqs, w, e);
    }
  }

  /** All commits are fresh exactly if all locks they were made under were. */
  lemma {:induction false} FreshCommitsIff(reqs: RequestId -> Change, events: seq<Event>)
    ensures FreshCommits(reqs, events) <==> CommittedLocksFresh(reqs, events)
    decreases |events|
  {
    if events != [] {
      FreshCommitsIff(reqs, events[..|events| - 1]);
      CommittedLocksNext(reqs, events);
    }
  }

  lemma {:induction false} FreshLocksAreLockedFresh(reqs: RequestId -> Change, events: seq<Event>, r: RequestId)
    requires FreshLocks(reqs, events)
    ensures LockedFresh(reqs, events, r)
    decreases |events|
  {
    if events != [] {
      FreshLocksAreLockedFresh(reqs, events[..|events| - 1], r);
    }
  }

  /** Under the lock nothing overtakes: if every lock is fresh, so is every commit. */
  lemma FreshLocksSuffice(reqs: RequestId -> Change, events: seq<Event>)
    requires FreshLocks(reqs, events)
    ensures FreshCommits(reqs, events)
  {
    forall r ensures LockedFresh(reqs, events, r) {
      FreshLocksAreLockedFresh(reqs, events, r);
    }
    FreshCommitsIff(reqs, events);
  }

  /** A change is staged exactly if it is a credit or the balance that the session holds covers it. */
  lemma WriteStagesIff(reqs: RequestId -> Change, w: World, r: RequestId)
    requires PhaseOf(w, r).Locked? && 0 <= PhaseOf(w, r).seen
    ensures var c, seen, next := reqs(r), PhaseOf(w, r).seen, PhaseOf(Step(reqs, w, Write(r)), r);
            && (c.kind in {Deposit, Refund, AdminCredit} ==> next == Staged(Entry(c.kind, c.amount, seen + c.amount, c.order)))
            && (c.kind in {PurchaseDebit, AdminDebit} ==>
                  next == if c.amount <= seen then Staged(Entry(c.kind, c.amount, seen - c.amount, c.order)) else RolledBack)
  {
  }

  // ---- The books ---------------------------------------------------------------------------

  /** A fresh commit is a posting; a stale one writes an entry that no ledger bears out. */
  lemma CommitPostsIffFresh(reqs: RequestId -> Change, w: World, r: RequestId)
    requires Inv(reqs, w) && PhaseOf(w, r).Staged?
    ensures var c := reqs(r);
            var wallet, wallet' := WalletOf(w.wallets, c.user), Committed(WalletOf(w.wallets, c.user), PhaseOf(w, r).entry);
            FreshCommit(reqs, w, Commit(r)) <==> Posted(wallet, c.kind, c.amount, c.order) == Some(wallet')
  {
    assert RequestOk(reqs, w, r);
    var wallet, e := WalletOf(w.wallets, reqs(r).user), PhaseOf(w, r).entry;
    assert (wallet.ledger + [e])[|wallet.ledger|] == e;
  }

  lemma SerialNext(reqs: RequestId -> Change, commits: seq<RequestId>, r: RequestId)
    ensures var before, c := Serial(reqs, commits), reqs(r);
            Serial(reqs, commits + [r])
              == match Posted(WalletOf(before, c.user), c.kind, c.amount, c.order)
                 case Some(next) => before[c.user := next]
                 case None => before
  {
    assert (commits + [r])[..|commits|] == commits;
  }

  lemma {:induction false} FreshRunsAreSerial(reqs: RequestId -> Change, events: seq<Event>, u: UserId)
    requires FreshCommits(reqs, events)
    ensures Run(reqs, events).wallets == Serial(reqs, Run(reqs, events).commits)
    ensures WellKept(WalletOf(Run(reqs, events).wallets, u))
    decreases |events|
  {
    if events != [] {
      var init, e := events[..|events| - 1], events[|events| - 1];
      var w := Run(reqs, init);
      FreshRunsAreSerial(reqs, init, u);
      RunKeepsInv(reqs, init);
      if e.Commit? && PhaseOf(w, e.r).Staged? {
        CommitIsSerial(reqs, w, e.r, Run(reqs, events), u);
      }
    }
  }

  lemma CommitIsSerial(reqs: RequestId -> Change, w: World, r: RequestId, t: World, u: UserId)
    requires Inv(reqs, w) && PhaseOf(w, r).Staged? && FreshCommit(reqs, w, Commit(r)) && t == Step(reqs, w, Commit(r))
    requires w.wallets == Serial(reqs, w.commits) && WellKept(WalletOf(w.wallets, u))
    ensures t.wallets == Serial(reqs, t.commits) && WellKept(WalletOf(t.wallets, u))
  {
    var c := reqs(r);
    CommitPostsIffFresh(reqs, w, r);
    SerialNext(reqs, w.commits, r);
    if c.user == u {
      PostedKeepsBooks(WalletOf(w.wallets, u), c.kind, c.amount, c.order);
    }
  }

  /** An entry that does not record the balance behind it. */
  ghost predicate Broken(wallet: Wallet) {
    exists i :: 0 <= i < |wallet.ledger| && !EntryOk(wallet.ledger, i)
  }

  lemma BrokenStays(wallet: Wallet, wallet': Wallet)
    requires wallet.ledger <= wallet'.ledger && Broken(wallet)
    ensures Broken(wallet')
  {
    var i :| 0 <= i < |wallet.ledger| && !EntryOk(wallet.ledger, i);
    assert wallet'.ledger[..i + 1] == wallet.ledger[..i + 1];
    assert !EntryOk(wallet'.ledger, i);
  }

  lemma StaleCommitBreaks(wallet: Wallet, e: Entry)
    requires WellKept(wallet) && e.balanceAfter != wallet.balance + Signed(e.kind, e.amount)
    ensures Broken(Committed(wallet, e))
  {
    var ledger' := wallet.ledger + [e];
    SumSnoc(wallet.ledger, e, SignedAmount());
    assert ledger'[..|wallet.ledger| + 1] == ledger';
    assert !EntryOk(ledger', |wallet.ledger|);
  }

  lemma {:induction false} StaleRunBreaks(reqs: RequestId -> Change, events: seq<Event>) returns (u: UserId)
    requires !FreshCommits(reqs, events)
    ensures Broken(WalletOf(Run(reqs, events).wallets, u))
    decreases |events|
  {
    var init, e := events[..|events| - 1], events[|events| - 1];
    var w := Run(reqs, init);
    if !FreshCommits(reqs, init) {
      u := StaleRunBreaks(reqs, init);
      LedgersOnlyGrow(reqs, w, e, u);
      BrokenStays(WalletOf(w.wallets, u), WalletOf(Step(reqs, w, e).wallets, u));
    } else {
      u := reqs(e.r).user;
      FreshRunsAreSerial(reqs, init, u);
      RunKeepsInv(reqs, init);
      assert RequestOk(reqs, w, e.r);
      StaleCommitBreaks(WalletOf(w.wallets, u), PhaseOf(w, e.r).entry);
    }
  }

  lemma BooksKeptIffCommitsFresh(reqs: RequestId -> Change, events: seq<Event>)
    ensures (forall u :: WellKept(WalletOf(Run(reqs, events).wallets, u))) <==> FreshCommits(reqs, events)
  {
    if FreshCommits(reqs, events) {
      forall u ensures WellKept(WalletOf(Run(reqs, events).wallets, u)) {
        FreshRunsAreSerial(reqs, events, u);
      }
    } else {
      var u := StaleRunBreaks(reqs, events);
      assert !WellKept(WalletOf(Run(reqs, events).wallets, u));
    }
  }

  /**
   * Over every interleaving the books are kept, of every wallet, if and only if no committed request took its
   * lock on a stale read: the lock refreshed it, or nobody had changed the balance since.
   */
  lemma BooksKeptIffLocksFresh(reqs: RequestId -> Change, events: seq<Event>)
    ensures (forall u :: WellKept(WalletOf(Run(reqs, events).wallets, u)))
       <==> CommittedLocksFresh(reqs, events)
  {
    BooksKeptIffCommitsFresh(reqs, events);
    FreshCommitsIff(reqs, events);
  }

  /**
   * Over every interleaving in which a lock leaves the session with the current balance, the committed wallets
   * are those of a serial run in commit order: balances are the signed sums, running balances the prefix sums,
   * nothing is overdrawn, no committed entry is lost.
   */
  lemma InterleavingsAreSerial(reqs: RequestId -> Change, events: seq<Event>, u: UserId)
    requires FreshLocks(reqs, events)
    ensures var w := Run(reqs, events);
            && w.wallets == Serial(reqs, w.commits)
            && Distinct(w.commits)
            && WellKept(WalletOf(w.wallets, u))
            && Postings(WalletOf(w.wallets, u).ledger) == CommittedPostings(reqs, w.commits, u)
  {
    FreshLocksSuffice(reqs, events);
    FreshRunsAreSerial(reqs, events, u);
    NoEntryIsLost(reqs, events, u);
  }

  // ---- A stale read ------------------------------------------------------------------------

  function TwoDeposits(): RequestId -> Change {
    (r: RequestId) => Change(1, Deposit, if r == 1 then 10 else 20, None)
  }

  const RACE: seq<Event> := [] + [Peek(1)] + [Peek(2)] + [Lock(1, true)] + [Write(1)] + [Commit(1)]

  lemma RunNext(reqs: RequestId -> Change, events: seq<Event>, e: Event)
    ensures Run(reqs, events + [e]) == Step(reqs, Run(reqs, events), e)
  {
    assert (events + [e])[..|events|] == events;
  }

  const FIRST_DEPOSIT := Entry(Deposit, 10, 10, None)
  const SECOND_DEPOSIT := Entry(Deposit, 20, 20, None)
  const AFTER_FIRST := World(map[1 := Wallet(10, [FIRST_DEPOSIT])], map[], map[1 := Done, 2 := Peeked(0)], [1])

  lemma FirstCommitted()
    ensures Run(TwoDeposits(), RACE) == AFTER_FIRST
  {
    var reqs := TwoDeposits();
    RunNext(reqs, [], Peek(1));
    RunNext(reqs, [] + [Peek(1)], Peek(2));
    RunNext(reqs, [] + [Peek(1)] + [Peek(2)], Lock(1, true));
    RunNext(reqs, [] + [Peek(1)] + [Peek(2)] + [Lock(1, true)], Write(1));
    RunNext(reqs, [] + [Peek(1)] + [Peek(2)] + [Lock(1, true)] + [Write(1)], Commit(1));
    var w2 := World(map[], map[], map[1 := Peeked(0), 2 := Peeked(0)], []);
    assert Run(reqs, [] + [Peek(1)] + [Peek(2)]) == w2;
    var w4 := World(map[], map[1 := 1], map[1 := Staged(FIRST_DEPOSIT), 2 := Peeked(0)], []);
    assert Step(reqs, Step(reqs, w2, Lock(1, true)), Write(1)) == w4;
    assert [] + [FIRST_DEPOSIT] == [FIRST_DEPOSIT] && [] + [1] == [1];
    assert w4.locks - {1} == map[] && w4.phases[1 := Done] == AFTER_FIRST.phases;
    assert Step(reqs, w4, Commit(1)) == AFTER_FIRST;
  }

  /** Both deposits read an empty wallet first; the second keeps that read under its lock, and ten are gone. */
  lemma StaleReadLosesMoney()
    ensures var w := Run(TwoDeposits(), RACE + [Lock(2, false)] + [Write(2)] + [Commit(2)]);
            && WalletOf(w.wallets, 1) == Wallet(20, [FIRST_DEPOSIT, SECOND_DEPOSIT])
            && LedgerBalance(WalletOf(w.wallets, 1).ledger) == 30
  {
    var reqs := TwoDeposits();
    FirstCommitted();
    RunNext(reqs, RACE, Lock(2, false));
    RunNext(reqs, RACE + [Lock(2, false)], Write(2));
    RunNext(reqs, RACE + [Lock(2, false)] + [Write(2)], Commit(2));
    var w := AFTER_FIRST.(locks := map[1 := 2], phases := map[1 := Done, 2 := Staged(SECOND_DEPOSIT)]);
    assert Step(reqs, Step(reqs, AFTER_FIRST, Lock(2, false)), Write(2)) == w;
    assert [FIRST_DEPOSIT] + [SECOND_DEPOSIT] == [FIRST_DEPOSIT, SECOND_DEPOSIT];
    SumSnoc([], FIRST_DEPOSIT, SignedAmount());
    SumSnoc([FIRST_DEPOSIT], SECOND_DEPOSIT, SignedAmount());
    assert [] + [FIRST_DEPOSIT] == [FIRST_DEPOSIT];
  }
}
