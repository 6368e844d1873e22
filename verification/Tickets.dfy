/**
 * The auto-close job racing other workers and humans. A worker closes each candidate by one conditional
 * update, committed with its message and audit row. A human reads a ticket in one step and writes the
 * columns that differ from what was read in another.
 */
module Tickets {
  import opened Prelude
  import opened Sums

  type TicketId = nat
  type WorkerId = nat
  type SessionId = nat

  datatype Status = Open | WaitingForSupport | WaitingForCustomer | Closed

  /** `waits` counts how often the ticket began to wait for its customer; it is not a column. */
  datatype Ticket = Ticket(user: nat, status: Status, closedAt: Option<nat>, lastResponse: nat, waits: nat)

  datatype Role = Customer | Support | System

  datatype Message = Message(ticket: TicketId, role: Role)

  datatype Intent = CustomerReply | SupportReply | ChangeStatus(to: Status)

  /** A human's open session: the ticket as read, and what is about to be written. */
  datatype Edit = Edit(ticket: TicketId, seen: Ticket, intent: Intent)

  /** A run of the job: what it picked at its cutoff, how far it is, and what it counted. */
  datatype Worker = Worker(cutoff: nat, candidates: seq<TicketId>, next: nat, closedCount: nat)

  /** `closings` records which worker closed which ticket; it is not a table. */
  datatype World = World(
    tickets: seq<Ticket>,
    messages: seq<Message>,
    audits: seq<TicketId>,
    workers: map<WorkerId, Worker>,
    edits: map<SessionId, Edit>,
    closings: seq<(WorkerId, TicketId)>)

  const START := World([], [], [], map[], map[], [])
  const BATCH_SIZE := 100

  datatype Event =
    | OpenTicket(user: nat, now: nat)
    | StartJob(worker: WorkerId, cutoff: nat, picked: seq<TicketId>)
    | CloseNext(worker: WorkerId, now: nat)
    | Read(session: SessionId, ticket: TicketId, intent: Intent)
    | Write(session: SessionId, now: nat)

  predicate Stale(t: Ticket, cutoff: nat) {
    t.status == WaitingForCustomer && t.lastResponse < cutoff
  }

  function StaleIds(tickets: seq<Ticket>, cutoff: nat): set<TicketId> {
    set i | 0 <= i < |tickets| && Stale(tickets[i], cutoff)
  }

  /** Any answer the limited query can give: distinct stale tickets, as many as there are up to the limit. */
  ghost predicate Selected(picked: seq<TicketId>, tickets: seq<Ticket>, cutoff: nat) {
    && Distinct(picked)
    && (forall t :: t in picked ==> t in StaleIds(tickets, cutoff))
    && |picked| == (if |StaleIds(tickets, cutoff)| < BATCH_SIZE then |StaleIds(tickets, cutoff)| else BATCH_SIZE)
  }

  function ClosedTicket(t: Ticket, now: nat): Ticket {
    t.(status := Closed, closedAt := Some(now))
  }

  /** The status column as a session flushes it: written only if it changed in the session. */
  function WithStatus(current: Ticket, seen: Ticket, to: Status): Ticket {
    if seen.status == to then current
    else current.(status := to,
                  waits := if to == WaitingForCustomer && current.status != WaitingForCustomer then current.waits + 1 else current.waits)
  }

  function Written(current: Ticket, edit: Edit, now: nat): Ticket {
    match edit.intent
    case CustomerReply => WithStatus(current, edit.seen, WaitingForSupport).(lastResponse := now)
    case SupportReply => WithStatus(current, edit.seen, WaitingForCustomer).(lastResponse := now)
    case ChangeStatus(to) =>
      var t := WithStatus(current, edit.seen, to);
      if to == Closed then t.(closedAt := Some(now)) else t
  }

  function Reply(edit: Edit): seq<Message> {
    match edit.intent
    case CustomerReply => [Message(edit.ticket, Customer)]
    case SupportReply => [Message(edit.ticket, Support)]
    case ChangeStatus(_) => []
  }

  function WaitingNow(w: World, t: TicketId): nat {
    if t < |w.tickets| && w.tickets[t].status == WaitingForCustomer then 1 else 0
  }

  /** The conditional update matched: ticket, message, audit row and count in one commit. */
  function CloseCandidate(w: World, id: WorkerId, now: nat): World
    requires id in w.workers && w.workers[id].next < |w.workers[id].candidates|
    requires WaitingNow(w, w.workers[id].candidates[w.workers[id].next]) == 1
  {
    var k := w.workers[id];
    var t := k.candidates[k.next];
    w.(tickets := w.tickets[t := ClosedTicket(w.tickets[t], now)],
       messages := w.messages + [Message(t, System)],
       audits := w.audits + [t],
       workers := w.workers[id := k.(next := k.next + 1, closedCount := k.closedCount + 1)],
       closings := w.closings + [(id, t)])
  }

  ghost function Step(w: World, e: Event): World {
    match e
    case OpenTicket(u, now) =>
      w.(tickets := w.tickets + [Ticket(u, WaitingForSupport, None, now, 0)],
         messages := w.messages + [Message(|w.tickets|, Customer)])
    case StartJob(id, cutoff, picked) =>
      if id in w.workers || !Selected(picked, w.tickets, cutoff) then w
      else w.(workers := w.workers[id := Worker(cutoff, picked, 0, 0)])
    case CloseNext(id, now) =>
      if id !in w.workers || w.workers[id].next >= |w.workers[id].candidates| then w
      else if WaitingNow(w, w.workers[id].candidates[w.workers[id].next]) == 1 then CloseCandidate(w, id, now)
      else w.(workers := w.workers[id := w.workers[id].(next := w.workers[id].next + 1)])
    case Read(h, t, intent) =>
      if t >= |w.tickets| || (!intent.ChangeStatus? && w.tickets[t].status == Closed) then w
      else w.(edits := w.edits[h := Edit(t, w.tickets[t], intent)])
    case Write(h, now) =>
      if h !in w.edits || w.edits[h].ticket >= |w.tickets| then w
      else
        var edit := w.edits[h];
        w.(tickets := w.tickets[edit.ticket := Written(w.tickets[edit.ticket], edit, now)],
           messages := w.messages + Reply(edit),
           edits := w.edits - {h})
  }

  ghost function RunFrom(w: World, events: seq<Event>): World {
    if events == [] then w else Step(RunFrom(w, events[..|events| - 1]), events[|events| - 1])
  }

  ghost function Run(events: seq<Event>): World {
    RunFrom(START, events)
  }

  // ---- What every run keeps ----------------------------------------------------------------

  function SystemMessages(t: TicketId): Message -> int {
    (m: Message) => if m.ticket == t && m.role == System then 1 else 0
  }

  function AuditsOf(t: TicketId): TicketId -> int {
    (a: TicketId) => if a == t then 1 else 0
  }

  function ClosingsOf(t: TicketId): ((WorkerId, TicketId)) -> int {
    (c: (WorkerId, TicketId)) => if c.1 == t then 1 else 0
  }

  function ClosingsBy(id: WorkerId): ((WorkerId, TicketId)) -> int {
    (c: (WorkerId, TicketId)) => if c.0 == id then 1 else 0
  }

  function WaitsOf(w: World, t: TicketId): nat {
    if t < |w.tickets| then w.tickets[t].waits else 0
  }

  /** Each close of `t` by the job has its message and audit row, and its own wait. */
  ghost predicate ClosesRecorded(w: World, t: TicketId) {
    && Sum(w.messages, SystemMessages(t)) == Sum(w.closings, ClosingsOf(t))
    && Sum(w.audits, AuditsOf(t)) == Sum(w.closings, ClosingsOf(t))
    && Sum(w.closings, ClosingsOf(t)) + WaitingNow(w, t) <= WaitsOf(w, t)
  }

  predicate CountOk(w: World, id: WorkerId) {
    Sum(w.closings, ClosingsBy(id)) == if id in w.workers then w.workers[id].closedCount else 0
  }

  predicate ClosedStamped(w: World) {
    forall i :: 0 <= i < |w.tickets| && w.tickets[i].status == Closed ==> w.tickets[i].closedAt.Some?
  }

  ghost predicate EditsOk(w: World) {
    && (forall h :: h in w.edits ==>
          && w.edits[h].ticket < |w.tickets|
          && (w.edits[h].seen.status == Closed ==> w.edits[h].intent.ChangeStatus?))
    && ClosedStamped(w)
  }

  /** The three counts after one more close, of ticket `c`. */
  lemma CloseCounts(w: World, id: WorkerId, c: TicketId, t: TicketId)
    ensures var one := if c == t then 1 else 0;
            && Sum(w.messages + [Message(c, System)], SystemMessages(t)) == Sum(w.messages, SystemMessages(t)) + one
            && Sum(w.audits + [c], AuditsOf(t)) == Sum(w.audits, AuditsOf(t)) + one
            && Sum(w.closings + [(id, c)], ClosingsOf(t)) == Sum(w.closings, ClosingsOf(t)) + one
  {
    SumSnoc(w.messages, Message(c, System), SystemMessages(t));
    SumSnoc(w.audits, c, AuditsOf(t));
    SumSnoc(w.closings, (id, c), ClosingsOf(t));
  }

  lemma CloseKeepsRecords(w: World, id: WorkerId, now: nat, t: TicketId)
    requires ClosesRecorded(w, t)
    requires id in w.workers && w.workers[id].next < |w.workers[id].candidates|
    requires WaitingNow(w, w.workers[id].candidates[w.workers[id].next]) == 1
    ensures ClosesRecorded(CloseCandidate(w, id, now), t)
  {
    CloseCounts(w, id, w.workers[id].candidates[w.workers[id].next], t);
  }

  /** Replies are never system messages. */
  lemma RepliesAreNotSystem(messages: seq<Message>, edit: Edit, t: TicketId)
    ensures Sum(messages + Reply(edit), SystemMessages(t)) == Sum(messages, SystemMessages(t))
  {
    match edit.intent
    case CustomerReply => SumSnoc(messages, Message(edit.ticket, Customer), SystemMessages(t));
    case SupportReply => SumSnoc(messages, Message(edit.ticket, Support), SystemMessages(t));
    case ChangeStatus(_) => assert messages + [] == messages;
  }

  /** A write makes a ticket wait only by beginning a new wait. */
  lemma WritesBeginWaits(current: Ticket, edit: Edit, now: nat)
    ensures var t := Written(current, edit, now);
            && current.waits <= t.waits
            && (t.status == WaitingForCustomer && current.status != WaitingForCustomer ==> t.waits == current.waits + 1)
  {
  }

  lemma WriteKeepsRecords(w: World, h: SessionId, now: nat, t: TicketId)
    requires ClosesRecorded(w, t)
    ensures ClosesRecorded(Step(w, Write(h, now)), t)
  {
    if h in w.edits && w.edits[h].ticket < |w.tickets| {
      var edit := w.edits[h];
      RepliesAreNotSystem(w.messages, edit, t);
      WritesBeginWaits(w.tickets[edit.ticket], edit, now);
    }
  }

  lemma StepKeepsRecords(w: World, e: Event, t: TicketId)
    requires ClosesRecorded(w, t)
    ensures ClosesRecorded(Step(w, e), t)
  {
    match e
    case OpenTicket(u, now) => SumSnoc(w.messages, Message(|w.tickets|, Customer), SystemMessages(t));
    case CloseNext(id, now) =>
      if id in w.workers && w.workers[id].next < |w.workers[id].candidates|
         && WaitingNow(w, w.workers[id].candidates[w.workers[id].next]) == 1 {
        CloseKeepsRecords(w, id, now, t);
      }
    case Write(h, now) => WriteKeepsRecords(w, h, now, t);
    case _ =>
  }

  lemma CloseKeepsCount(w: World, closer: WorkerId, now: nat, id: WorkerId)
    requires CountOk(w, id)
    requires closer in w.workers && w.workers[closer].next < |w.workers[closer].candidates|
    requires WaitingNow(w, w.workers[closer].candidates[w.workers[closer].next]) == 1
    ensures CountOk(CloseCandidate(w, closer, now), id)
  {
    SumSnoc(w.closings, (closer, w.workers[closer].candidates[w.workers[closer].next]), ClosingsBy(id));
  }

  lemma StepKeepsCount(w: World, e: Event, id: WorkerId)
    requires CountOk(w, id)
    ensures CountOk(Step(w, e), id)
  {
    if e.CloseNext? && e.worker in w.workers && w.workers[e.worker].next < |w.workers[e.worker].candidates|
       && WaitingNow(w, w.workers[e.worker].candidates[w.workers[e.worker].next]) == 1 {
      CloseKeepsCount(w, e.worker, e.now, id);
    } else {
      assert Step(w, e).closings == w.closings;
    }
  }

  lemma StepKeepsStamps(w: World, e: Event)
    requires EditsOk(w)
    ensures EditsOk(Step(w, e))
  {
  }

  lemma {:induction false} RunKeepsAll(events: seq<Event>, t: TicketId, id: WorkerId)
    ensures ClosesRecorded(Run(events), t) && CountOk(Run(events), id) && EditsOk(Run(events))
    decreases |events|
  {
    if events != [] {
      var init, e := events[..|events| - 1], events[|events| - 1];
      RunKeepsAll(init, t, id);
      StepKeepsRecords(Run(init), e, t);
      StepKeepsCount(Run(init), e, id);
      StepKeepsStamps(Run(init), e);
    }
  }

  /**
   * Over every interleaving: each close by the job has exactly one system message and one audit row, no
   * wait is closed twice, each worker's count is what it closed, and closed tickets are stamped.
   */
  lemma AutoCloseExactlyOnce(events: seq<Event>, t: TicketId, id: WorkerId)
    ensures var w := Run(events);
            && Sum(w.messages, SystemMessages(t)) == Sum(w.audits, AuditsOf(t)) == Sum(w.closings, ClosingsOf(t))
            && Sum(w.closings, ClosingsOf(t)) <= WaitsOf(w, t)
            && (id in w.workers ==> w.workers[id].closedCount == Sum(w.closings, ClosingsBy(id)))
            && (t < |w.tickets| && w.tickets[t].status == Closed ==> w.tickets[t].closedAt.Some?)
  {
    RunKeepsAll(events, t, id);
  }

  // ---- When the job closes a ticket that is still stale ------------------------------------

  /** The event writes a reply to `t`. */
  predicate WritesReply(w: World, e: Event, t: TicketId) {
    && e.Write? && e.session in w.edits && t < |w.tickets|
    && w.edits[e.session].ticket == t && !w.edits[e.session].intent.ChangeStatus?
  }

  /** The date of the last reply to `t` that the events write. */
  ghost function LastReply(w: World, events: seq<Event>, t: TicketId): Option<nat> {
    if events == [] then None
    else
      var init, e := events[..|events| - 1], events[|events| - 1];
      if WritesReply(RunFrom(w, init), e, t) then Some(e.now) else LastReply(w, init, t)
  }

  /** No reply to `t` is written, or the last one is dated before the cutoff. */
  ghost predicate NoReplySince(w: World, events: seq<Event>, t: TicketId, cutoff: nat) {
    var last := LastReply(w, events, t);
    last.None? || last.value < cutoff
  }

  /** `last_response_at` is the date of the last reply, of customer or support, whatever else happened. */
  lemma {:induction false} LastResponseIsLastReply(w: World, events: seq<Event>, t: TicketId)
    requires t < |w.tickets|
    ensures var v := RunFrom(w, events);
            && t < |v.tickets|
            && v.tickets[t].lastResponse
                 == match LastReply(w, events, t) case Some(date) => date case None => w.tickets[t].lastResponse
    decreases |events|
  {
    if events != [] {
      LastResponseIsLastReply(w, events[..|events| - 1], t);
    }
  }

  lemma {:induction false} WorkerKeepsItsPick(w: World, events: seq<Event>, id: WorkerId)
    requires id in w.workers
    ensures var v := RunFrom(w, events);
            && id in v.workers
            && v.workers[id].cutoff == w.workers[id].cutoff && v.workers[id].candidates == w.workers[id].candidates
    decreases |events|
  {
    if events != [] {
      WorkerKeepsItsPick(w, events[..|events| - 1], id);
    }
  }

  /** The worker's next step closes `t` with its message, audit row and count, if it waits, else leaves it alone. */
  ghost predicate ClosesIfWaiting(v: World, id: WorkerId, t: TicketId, now: nat)
    requires id in v.workers && t < |v.tickets|
  {
    var v' := Step(v, CloseNext(id, now));
    if v.tickets[t].status == WaitingForCustomer
    then v'.tickets == v.tickets[t := ClosedTicket(v.tickets[t], now)]
         && v'.messages == v.messages + [Message(t, System)] && v'.audits == v.audits + [t]
         && v'.closings == v.closings + [(id, t)]
         && v'.workers == v.workers[id := v.workers[id].(next := v.workers[id].next + 1, closedCount := v.workers[id].closedCount + 1)]
    else v'.tickets == v.tickets && v'.messages == v.messages && v'.audits == v.audits && v'.closings == v.closings
         && v'.workers == v.workers[id := v.workers[id].(next := v.workers[id].next + 1)]
  }

  /**
   * Whatever happens between the pick and the close: the job closes its candidate if it waits, and the ticket
   * is then still stale if and only if no reply to it was written since the pick, or the last one is dated
   * before the cutoff.
   */
  lemma ClosesStaleIff(w: World, id: WorkerId, cutoff: nat, picked: seq<TicketId>, events: seq<Event>, now: nat)
    requires id !in w.workers && Selected(picked, w.tickets, cutoff)
    requires var v := RunFrom(Step(w, StartJob(id, cutoff, picked)), events);
             id in v.workers && v.workers[id].next < |v.workers[id].candidates|
    ensures var u := Step(w, StartJob(id, cutoff, picked));
            var v := RunFrom(u, events);
            var t := v.workers[id].candidates[v.workers[id].next];
            && v.workers[id].cutoff == cutoff && v.workers[id].candidates == picked
            && t < |v.tickets|
            && ClosesIfWaiting(v, id, t, now)
            && (v.tickets[t].status == WaitingForCustomer ==>
                  (Stale(v.tickets[t], cutoff) <==> NoReplySince(u, events, t, cutoff)))
  {
    var u := Started(w, id, cutoff, picked);
    assert u == Step(w, StartJob(id, cutoff, picked));
    var v := RunFrom(u, events);
    WorkerKeepsItsPick(u, events, id);
    StaleIffNoReplySince(w, id, cutoff, picked, events, picked[v.workers[id].next]);
    NextCloses(v, id, now);
  }

  /** The world in which the job has picked. */
  ghost function Started(w: World, id: WorkerId, cutoff: nat, picked: seq<TicketId>): World {
    w.(workers := w.workers[id := Worker(cutoff, picked, 0, 0)])
  }

  lemma StaleIffNoReplySince(w: World, id: WorkerId, cutoff: nat, picked: seq<TicketId>, events: seq<Event>, t: TicketId)
    requires Selected(picked, w.tickets, cutoff) && t in picked
    ensures var u := Started(w, id, cutoff, picked);
            var v := RunFrom(u, events);
            && t < |v.tickets|
            && (v.tickets[t].status == WaitingForCustomer ==>
                  (Stale(v.tickets[t], cutoff) <==> NoReplySince(u, events, t, cutoff)))
  {
    assert t in StaleIds(w.tickets, cutoff);
    LastResponseIsLastReply(Started(w, id, cutoff, picked), events, t);
  }

  lemma NextCloses(v: World, id: WorkerId, now: nat)
    requires id in v.workers && v.workers[id].next < |v.workers[id].candidates|
    requires v.workers[id].candidates[v.workers[id].next] < |v.tickets|
    ensures ClosesIfWaiting(v, id, v.workers[id].candidates[v.workers[id].next], now)
  {
  }

  // ---- When a closed ticket is reopened ----------------------------------------------------

  /** The status an edit writes. */
  function Target(intent: Intent): Status {
    match intent
    case CustomerReply => WaitingForSupport
    case SupportReply => WaitingForCustomer
    case ChangeStatus(to) => to
  }

  /** A write that takes a closed ticket out of `closed`: its session read another status than it writes. */
  predicate Reopens(v: World, e: Event, t: TicketId) {
    && e.Write? && e.session in v.edits && v.edits[e.session].ticket == t
    && Target(v.edits[e.session].intent) != Closed
    && v.edits[e.session].seen.status != Target(v.edits[e.session].intent)
  }

  /** `t` is closed now and after each of the events. */
  ghost predicate ClosedThroughout(w: World, events: seq<Event>, t: TicketId) {
    var v := RunFrom(w, events);
    && t < |v.tickets| && v.tickets[t].status == Closed
    && (events == [] || ClosedThroughout(w, events[..|events| - 1], t))
  }

  /** A session that is replying to `t`. */
  predicate Replying(w: World, h: SessionId, t: TicketId) {
    h in w.edits && w.edits[h].ticket == t && !w.edits[h].intent.ChangeStatus?
  }

  /** No reply is begun on a closed ticket: who is replying now was replying before the close. */
  lemma {:induction false} RepliesAreOlder(w: World, events: seq<Event>, t: TicketId, h: SessionId)
    requires ClosedThroughout(w, events, t) && Replying(RunFrom(w, events), h, t)
    ensures Replying(w, h, t) && RunFrom(w, events).edits[h] == w.edits[h]
    decreases |events|
  {
    if events != [] {
      RepliesAreOlder(w, events[..|events| - 1], t, h);
    }
  }

  lemma LeavesClosedIff(v: World, e: Event, t: TicketId)
    requires t < |v.tickets| && v.tickets[t].status == Closed
    ensures t < |Step(v, e).tickets| && (Step(v, e).tickets[t].status != Closed <==> Reopens(v, e, t))
  {
  }

  /**
   * However long a ticket has been closed, an event reopens it if and only if it is a write of another status
   * than its session has read; and a reply can only do so if its session was open when the ticket was closed.
   */
  lemma ReopensIff(w: World, events: seq<Event>, e: Event, t: TicketId)
    requires ClosedThroughout(w, events, t)
    ensures var v := RunFrom(w, events);
            && t < |v.tickets| && t < |Step(v, e).tickets|
            && (Step(v, e).tickets[t].status != Closed <==> Reopens(v, e, t))
            && (Reopens(v, e, t) ==>
                  v.edits[e.session].intent.ChangeStatus?
                  || (Replying(w, e.session, t) && v.edits[e.session] == w.edits[e.session]))
  {
    LeavesClosedIff(RunFrom(w, events), e, t);
    if Reopens(RunFrom(w, events), e, t) && Replying(RunFrom(w, events), e.session, t) {
      RepliesAreOlder(w, events, t, e.session);
    }
  }

  // ---- Concrete runs -----------------------------------------------------------------------

  const REPLIED: seq<Event> := [] + [OpenTicket(1, 0)] + [Read(1, 0, SupportReply)] + [Write(1, 10)]
  const PICKED_RUN: seq<Event> := REPLIED + [StartJob(1, 20, [0])]
  const ASKED := [Message(0, Customer), Message(0, Support)]
  const WAITING := World([Ticket(1, WaitingForCustomer, None, 10, 1)], ASKED, [], map[], map[], [])
  const PICKED := WAITING.(workers := map[1 := Worker(20, [0], 0, 0)])

  /** A new ticket waits for support. */
  lemma NewTicket(user: nat, now: nat)
    ensures Run([] + [OpenTicket(user, now)]).tickets == [Ticket(user, WaitingForSupport, None, now, 0)]
    ensures Run([] + [OpenTicket(user, now)]).messages == [Message(0, Customer)]
  {
    RunSnoc([], OpenTicket(user, now));
  }

  lemma SupportReplied()
    ensures Run(REPLIED) == WAITING
  {
    var e0, e1, e2 := OpenTicket(1, 0), Read(1, 0, SupportReply), Write(1, 10);
    RunSnoc([], e0);
    RunSnoc([] + [e0], e1);
    RunSnoc([] + [e0] + [e1], e2);
    var w1 := Step(START, e0);
    assert w1.tickets == [Ticket(1, WaitingForSupport, None, 0, 0)];
    var w2 := Step(w1, e1);
    assert w2.edits == map[0 + 1 := Edit(0, w1.tickets[0], SupportReply)];
    var w3 := Step(w2, e2);
    assert w3.edits == map[] && w3.tickets == WAITING.tickets;
  }

  lemma JobPicked()
    ensures Run(PICKED_RUN) == PICKED
  {
    RunSnoc(REPLIED, StartJob(1, 20, [0]));
    SupportReplied();
    assert StaleIds(WAITING.tickets, 20) == {0};
    assert Selected([0], WAITING.tickets, 20);
  }

  /** One edit of ticket 0 from reading to writing, when no other session is open. */
  lemma EditedAlone(w: World, h: SessionId, intent: Intent, now: nat)
    requires |w.tickets| == 1 && w.edits == map[] && (intent.ChangeStatus? || w.tickets[0].status != Closed)
    ensures var edit := Edit(0, w.tickets[0], intent);
            Step(Step(w, Read(h, 0, intent)), Write(h, now))
              == w.(tickets := [Written(w.tickets[0], edit, now)], messages := w.messages + Reply(edit))
  {
    var edit := Edit(0, w.tickets[0], intent);
    var w1 := Step(w, Read(h, 0, intent));
    assert w1 == w.(edits := map[h := edit]);
    assert w1.edits - {h} == map[];
    assert w1.tickets[0 := Written(w.tickets[0], edit, now)] == [Written(w.tickets[0], edit, now)];
  }

  /** Worker `id` closes ticket 0, its only candidate. */
  lemma ClosedAlone(w: World, id: WorkerId, cutoff: nat, now: nat)
    requires |w.tickets| == 1 && w.tickets[0].status == WaitingForCustomer
    requires id in w.workers && w.workers[id] == Worker(cutoff, [0], 0, 0)
    ensures Step(w, CloseNext(id, now))
         == w.(tickets := [ClosedTicket(w.tickets[0], now)],
               messages := w.messages + [Message(0, System)],
               audits := w.audits + [0],
               workers := w.workers[id := Worker(cutoff, [0], 1, 1)],
               closings := w.closings + [(id, 0)])
  {
    assert w.tickets[0 := ClosedTicket(w.tickets[0], now)] == [ClosedTicket(w.tickets[0], now)];
  }

  /**
   * The candidate list is not refreshed and the update looks at the status alone: a waiting ticket that
   * support answered once more, after the cutoff, is closed all the same.
   */
  lemma JobClosesAnsweredTicket()
    ensures var w := Run(PICKED_RUN + [Read(2, 0, SupportReply)] + [Write(2, 30)] + [CloseNext(1, 31)]);
            |w.tickets| == 1 && w.tickets[0] == Ticket(1, Closed, Some(31), 30, 1)
  {
    var e4, e5, e6 := Read(2, 0, SupportReply), Write(2, 30), CloseNext(1, 31);
    RunSnoc(PICKED_RUN, e4);
    RunSnoc(PICKED_RUN + [e4], e5);
    RunSnoc(PICKED_RUN + [e4] + [e5], e6);
    JobPicked();
    EditedAlone(PICKED, 2, SupportReply, 30);
    ClosedAlone(Run(PICKED_RUN + [e4] + [e5]), 1, 20, 31);
  }

  const CUSTOMER_ANSWERED := PICKED.(tickets := [Ticket(1, WaitingForSupport, None, 30, 1)],
                                     messages := ASKED + [Message(0, Customer)])
  const WAITING_AGAIN := PICKED.(tickets := [Ticket(1, WaitingForCustomer, None, 31, 2)],
                                 messages := ASKED + [Message(0, Customer)] + [Message(0, Support)])

  /** The customer answers, support answers back, and the job closes the new wait, one time unit old. */
  lemma JobClosesFreshWait()
    ensures var w := Run(PICKED_RUN + [Read(2, 0, CustomerReply)] + [Write(2, 30)]
                                    + [Read(3, 0, SupportReply)] + [Write(3, 31)] + [CloseNext(1, 32)]);
            |w.tickets| == 1 && w.tickets[0] == Ticket(1, Closed, Some(32), 31, 2)
  {
    var e4, e5, e6, e7, e8 :=
      Read(2, 0, CustomerReply), Write(2, 30), Read(3, 0, SupportReply), Write(3, 31), CloseNext(1, 32);
    RunSnoc(PICKED_RUN, e4);
    RunSnoc(PICKED_RUN + [e4], e5);
    RunSnoc(PICKED_RUN + [e4] + [e5], e6);
    RunSnoc(PICKED_RUN + [e4] + [e5] + [e6], e7);
    RunSnoc(PICKED_RUN + [e4] + [e5] + [e6] + [e7], e8);
    JobPicked();
    EditedAlone(PICKED, 2, CustomerReply, 30);
    assert Run(PICKED_RUN + [e4] + [e5]) == CUSTOMER_ANSWERED;
    EditedAlone(CUSTOMER_ANSWERED, 3, SupportReply, 31);
    assert Run(PICKED_RUN + [e4] + [e5] + [e6] + [e7]) == WAITING_AGAIN;
    ClosedAlone(WAITING_AGAIN, 1, 20, 32);
  }

  const CLOSED_ONCE := World([Ticket(1, Closed, Some(21), 10, 1)], ASKED + [Message(0, System)], [0],
                             map[1 := Worker(20, [0], 1, 1)], map[], [(1, 0)])
  const REOPENED := CLOSED_ONCE.(tickets := [Ticket(1, WaitingForCustomer, Some(21), 10, 2)])

  lemma PickedAgain()
    ensures Step(REOPENED, StartJob(2, 20, [0]))
         == REOPENED.(workers := REOPENED.workers[2 := Worker(20, [0], 0, 0)])
  {
    assert StaleIds(REOPENED.tickets, 20) == {0};
    assert Selected([0], REOPENED.tickets, 20);
  }

  const CLOSED_RUN: seq<Event> := PICKED_RUN + [CloseNext(1, 21)]
  const REOPENED_RUN: seq<Event> :=
    CLOSED_RUN + [Read(2, 0, ChangeStatus(WaitingForCustomer))] + [Write(2, 22)]

  lemma ClosedOnce()
    ensures Run(CLOSED_RUN) == CLOSED_ONCE
  {
    RunSnoc(PICKED_RUN, CloseNext(1, 21));
    JobPicked();
    ClosedAlone(PICKED, 1, 20, 21);
    assert PICKED.workers[1 := Worker(20, [0], 1, 1)] == CLOSED_ONCE.workers;
  }

  lemma ReopenedByHand()
    ensures Run(REOPENED_RUN) == REOPENED
  {
    var e1, e2 := Read(2, 0, ChangeStatus(WaitingForCustomer)), Write(2, 22);
    RunSnoc(CLOSED_RUN, e1);
    RunSnoc(CLOSED_RUN + [e1], e2);
    ClosedOnce();
    EditedAlone(CLOSED_ONCE, 2, ChangeStatus(WaitingForCustomer), 22);
  }

  /** A ticket set back to waiting by hand is a second wait, and closed a second time: once is once per wait. */
  lemma TicketClosedTwice()
    ensures var w := Run(REOPENED_RUN + [StartJob(2, 20, [0])] + [CloseNext(2, 23)]);
            && w.closings == [(1, 0), (2, 0)] && w.audits == [0, 0]
            && |w.tickets| == 1 && w.tickets[0] == Ticket(1, Closed, Some(23), 10, 2)
  {
    var e1, e2 := StartJob(2, 20, [0]), CloseNext(2, 23);
    RunSnoc(REOPENED_RUN, e1);
    RunSnoc(REOPENED_RUN + [e1], e2);
    ReopenedByHand();
    PickedAgain();
    ClosedAlone(REOPENED.(workers := REOPENED.workers[2 := Worker(20, [0], 0, 0)]), 2, 20, 23);
  }

  lemma RunSnoc(events: seq<Event>, e: Event)
    ensures Run(events + [e]) == Step(Run(events), e)
  {
    assert (events + [e])[..|events|] == events;
  }

  // ---- Batches without interference --------------------------------------------------------

  function CloseAll(tickets: seq<Ticket>, picked: seq<TicketId>, now: nat): seq<Ticket> {
    seq(|tickets|, i requires 0 <= i < |tickets| => if i in picked then ClosedTicket(tickets[i], now) else tickets[i])
  }

  /** Runs of the job at a fixed cutoff, each with its own answer to the query; `tables` has the table between them. */
  ghost predicate JobRuns(tables: seq<seq<Ticket>>, picks: seq<seq<TicketId>>, cutoff: nat, now: nat) {
    && |tables| == |picks| + 1
    && forall i :: 0 <= i < |picks| ==>
         Selected(picks[i], tables[i], cutoff) && tables[i + 1] == CloseAll(tables[i], picks[i], now)
  }

  ghost function Elements(xs: seq<TicketId>): set<TicketId> {
    set x | x in xs
  }

  lemma {:induction false} DistinctSize(xs: seq<TicketId>)
    requires Distinct(xs)
    ensures |Elements(xs)| == |xs|
    decreases |xs|
  {
    if xs != [] {
      var init, last := xs[..|xs| - 1], xs[|xs| - 1];
      DistinctSize(init);
      assert xs == init + [last] && last !in init;
      assert Elements(xs) == Elements(init) + {last};
    }
  }

  lemma OneRunCloses(tickets: seq<Ticket>, cutoff: nat, now: nat, picked: seq<TicketId>)
    requires Selected(picked, tickets, cutoff)
    ensures |StaleIds(CloseAll(tickets, picked, now), cutoff)| == |StaleIds(tickets, cutoff)| - |picked|
  {
    var before, after := StaleIds(tickets, cutoff), StaleIds(CloseAll(tickets, picked, now), cutoff);
    DistinctSize(picked);
    assert before == after + Elements(picked) && after !! Elements(picked);
  }

  /** Every run closes up to a batch: `k` runs leave what is beyond `k` batches. */
  lemma {:induction false} RunsCloseBatches(tables: seq<seq<Ticket>>, picks: seq<seq<TicketId>>, cutoff: nat, now: nat, k: nat)
    requires JobRuns(tables, picks, cutoff, now) && k <= |picks|
    ensures |StaleIds(tables[k], cutoff)| == Max(0, |StaleIds(tables[0], cutoff)| - BATCH_SIZE * k)
    decreases k
  {
    if k > 0 {
      RunsCloseBatches(tables, picks, cutoff, now, k - 1);
      assert Selected(picks[k - 1], tables[k - 1], cutoff);
      OneRunCloses(tables[k - 1], cutoff, now, picks[k - 1]);
      assert tables[k - 1 + 1] == CloseAll(tables[k - 1], picks[k - 1], now);
    }
  }

  /** As many runs as there are batches close every stale ticket, fewer do not, and a later run picks none. */
  lemma BatchesCloseEverything(tables: seq<seq<Ticket>>, picks: seq<seq<TicketId>>, cutoff: nat, now: nat, k: nat)
    requires JobRuns(tables, picks, cutoff, now) && k <= |picks|
    ensures StaleIds(tables[k], cutoff) == {} <==> (|StaleIds(tables[0], cutoff)| + 99) / 100 <= k
    ensures |StaleIds(tables[k], cutoff)| == Max(0, |StaleIds(tables[0], cutoff)| - 100 * k)
    ensures StaleIds(tables[k], cutoff) == {} && k < |picks| ==> picks[k] == []
  {
    RunsCloseBatches(tables, picks, cutoff, now, k);
    if k < |picks| {
      assert Selected(picks[k], tables[k], cutoff);
    }
  }

  /** The next `n` steps of one worker, with nobody between them. */
  ghost function CloseSteps(w: World, id: WorkerId, now: nat, n: nat): World {
    if n == 0 then w else Step(CloseSteps(w, id, now, n - 1), CloseNext(id, now))
  }

  /** What an uninterrupted worker has done after `n` of its candidates. */
  ghost predicate ClosedSoFar(w: World, id: WorkerId, cutoff: nat, picked: seq<TicketId>, now: nat, n: nat, t: World)
    requires n <= |picked|
  {
    && t.tickets == CloseAll(w.tickets, picked[..n], now)
    && t.messages == w.messages + seq(n, i requires 0 <= i < n => Message(picked[i], System))
    && t.audits == w.audits + picked[..n]
    && id in t.workers && t.workers[id] == Worker(cutoff, picked, n, n)
  }

  lemma CloseAllSnoc(tickets: seq<Ticket>, picked: seq<TicketId>, now: nat, t: TicketId)
    requires t < |tickets| && t !in picked
    ensures t < |CloseAll(tickets, picked, now)| && CloseAll(tickets, picked, now)[t] == tickets[t]
    ensures CloseAll(tickets, picked + [t], now) == CloseAll(tickets, picked, now)[t := ClosedTicket(tickets[t], now)]
  {
  }

  lemma NextUninterrupted(w: World, id: WorkerId, cutoff: nat, picked: seq<TicketId>, now: nat, n: nat, t: World)
    requires Selected(picked, w.tickets, cutoff) && n < |picked| && ClosedSoFar(w, id, cutoff, picked, now, n, t)
    ensures ClosedSoFar(w, id, cutoff, picked, now, n + 1, Step(t, CloseNext(id, now)))
  {
    var next := picked[n];
    assert next in StaleIds(w.tickets, cutoff) && next !in picked[..n];
    assert picked[..n + 1] == picked[..n] + [next];
    CloseAllSnoc(w.tickets, picked[..n], now, next);
    assert Step(t, CloseNext(id, now)) == CloseCandidate(t, id, now);
  }

  lemma {:induction false} UninterruptedSteps(w: World, id: WorkerId, cutoff: nat, picked: seq<TicketId>, now: nat, n: nat)
    requires id !in w.workers && Selected(picked, w.tickets, cutoff) && n <= |picked|
    ensures ClosedSoFar(w, id, cutoff, picked, now, n, CloseSteps(Step(w, StartJob(id, cutoff, picked)), id, now, n))
    decreases n
  {
    if n > 0 {
      UninterruptedSteps(w, id, cutoff, picked, now, n - 1);
      NextUninterrupted(w, id, cutoff, picked, now, n - 1,
                        CloseSteps(Step(w, StartJob(id, cutoff, picked)), id, now, n - 1));
    } else {
      assert CloseAll(w.tickets, [], now) == w.tickets;
    }
  }

  /** Without interference the interleaved job is one run of the batch: it closes, notes, audits and counts all it picked. */
  lemma UninterruptedJob(w: World, id: WorkerId, cutoff: nat, picked: seq<TicketId>, now: nat)
    requires id !in w.workers && Selected(picked, w.tickets, cutoff)
    ensures var t := CloseSteps(Step(w, StartJob(id, cutoff, picked)), id, now, |picked|);
            && t.tickets == CloseAll(w.tickets, picked, now)
            && t.messages == w.messages + seq(|picked|, i requires 0 <= i < |picked| => Message(picked[i], System))
            && t.audits == w.audits + picked
            && id in t.workers && t.workers[id].closedCount == |picked|
            && |StaleIds(t.tickets, cutoff)| == |StaleIds(w.tickets, cutoff)| - |picked|
  {
    UninterruptedSteps(w, id, cutoff, picked, now, |picked|);
    assert picked[..|picked|] == picked;
    OneRunCloses(w.tickets, cutoff, now, picked);
  }

  // ---- The job and the service as they run -------------------------------------------------

  class TicketStore {
    var tickets: seq<Ticket>
    var messages: seq<Message>
    var audits: seq<TicketId>

    constructor ()
      ensures tickets == [] && messages == [] && audits == []
    {
      tickets, messages, audits := [], [], [];
    }

    /** The job when nothing interferes; `candidates` is the answer to its query. */
    method AutoCloseStaleTickets(candidates: seq<TicketId>, ghost cutoff: nat, now: nat) returns (closedCount: nat)
      requires Selected(candidates, tickets, cutoff)
      modifies this
      ensures closedCount == |candidates|
      ensures tickets == CloseAll(old(tickets), candidates, now)
      ensures |tickets| == |old(tickets)|
      ensures forall i :: 0 <= i < |tickets| ==>
        tickets[i] == if i in candidates then old(tickets)[i].(status := Closed, closedAt := Some(now)) else old(tickets)[i]
      ensures messages == old(messages) + seq(|candidates|, i requires 0 <= i < |candidates| => Message(candidates[i], System))
      ensures audits == old(audits) + candidates
    {
      closedCount := 0;
      for i := 0 to |candidates|
        invariant closedCount == i
        invariant tickets == CloseAll(old(tickets), candidates[..i], now)
        invariant messages == old(messages) + seq(i, j requires 0 <= j < i => Message(candidates[j], System))
        invariant audits == old(audits) + candidates[..i]
      {
        var t := candidates[i];
        assert t in StaleIds(old(tickets), cutoff);
        assert t !in candidates[..i];
        if tickets[t].status != WaitingForCustomer {
          continue;
        }
        tickets := tickets[t := tickets[t].(status := Closed, closedAt := Some(now))];
        messages := messages + [Message(t, System)];
        audits := audits + [t];
        closedCount := closedCount + 1;
        assert candidates[..i + 1] == candidates[..i] + [t];
      }
      assert candidates[..|candidates|] == candidates;
    }

    method CreateTicket(user: nat, now: nat) returns (t: TicketId)
      modifies this`tickets, this`messages
      ensures t == |old(tickets)|
      ensures tickets == old(tickets) + [Ticket(user, WaitingForSupport, None, now, 0)]
      ensures messages == old(messages) + [Message(t, Customer)]
    {
      t := |tickets|;
      tickets := tickets + [Ticket(user, WaitingForSupport, None, now, 0)];
      messages := messages + [Message(t, Customer)];
    }

    method AddCustomerReply(t: TicketId, user: nat, now: nat) returns (r: Result<()>)
      modifies this`tickets, this`messages
      ensures r == if t >= |old(tickets)| then Err(NotFound)
                   else if old(tickets)[t].user != user then Err(PermissionDenied)
                   else if old(tickets)[t].status == Closed then Err(Conflict) else Ok(())
      ensures r.Err? ==> tickets == old(tickets) && messages == old(messages)
      ensures r.Ok? ==> messages == old(messages) + [Message(t, Customer)]
      ensures r.Ok? ==> tickets == old(tickets)[t := Written(old(tickets)[t], Edit(t, old(tickets)[t], CustomerReply), now)]
      ensures r.Ok? ==> tickets == old(tickets)[t := old(tickets)[t].(status := WaitingForSupport, lastResponse := now)]
    {
      if t >= |tickets| {
        return Err(NotFound);
      }
      if tickets[t].user != user {
        return Err(PermissionDenied);
      }
      if tickets[t].status == Closed {
        return Err(Conflict);
      }
      messages := messages + [Message(t, Customer)];
      tickets := tickets[t := tickets[t].(status := WaitingForSupport, lastResponse := now)];
      r := Ok(());
    }

    method AddSupportReply(t: TicketId, now: nat) returns (r: Result<()>)
      modifies this`tickets, this`messages
      ensures r == if t >= |old(tickets)| then Err(NotFound)
                   else if old(tickets)[t].status == Closed then Err(Conflict) else Ok(())
      ensures r.Err? ==> tickets == old(tickets) && messages == old(messages)
      ensures r.Ok? ==> messages == old(messages) + [Message(t, Support)]
      ensures r.Ok? ==> tickets == old(tickets)[t := Written(old(tickets)[t], Edit(t, old(tickets)[t], SupportReply), now)]
      ensures r.Ok? ==>
        tickets[t] == old(tickets)[t].(status := WaitingForCustomer, lastResponse := now, waits := tickets[t].waits)
    {
      if t >= |tickets| {
        return Err(NotFound);
      }
      if tickets[t].status == Closed {
        return Err(Conflict);
      }
      messages := messages + [Message(t, Support)];
      var ticket := tickets[t];
      if ticket.status != WaitingForCustomer {
        ticket := ticket.(waits := ticket.waits + 1);
      }
      tickets := tickets[t := ticket.(status := WaitingForCustomer, lastResponse := now)];
      r := Ok(());
    }

    method SetStatus(t: TicketId, to: Status, now: nat) returns (r: Result<()>)
      modifies this`tickets
      ensures r == if t >= |old(tickets)| then Err(NotFound) else Ok(())
      ensures r.Err? ==> tickets == old(tickets)
      ensures r.Ok? ==>
        tickets == old(tickets)[t := Written(old(tickets)[t], Edit(t, old(tickets)[t], ChangeStatus(to)), now)]
      ensures r.Ok? ==>
        && tickets[t] == old(tickets)[t].(status := to, closedAt := tickets[t].closedAt, waits := tickets[t].waits)
        && tickets[t].closedAt == if to == Closed then Some(now) else old(tickets)[t].closedAt
    {
      if t >= |tickets| {
        return Err(NotFound);
      }
      var ticket := tickets[t];
      if to == WaitingForCustomer && ticket.status != WaitingForCustomer {
        ticket := ticket.(waits := ticket.waits + 1);
      }
      ticket := ticket.(status := to);
      if to == Closed {
        ticket := ticket.(closedAt := Some(now));
      }
      tickets := tickets[t := ticket];
      r := Ok(());
    }
  }
}
