/**
 * The idempotency guard under interleaving. The unique insert is atomic: it fails against a committed row
 * and waits while another transaction holds the same key. `effects` lists the committed business steps, and
 * `log` the requests that have their answer, both in order.
 */
module IdempotencyRace {
  import opened Prelude
  import G = Idempotency

  type RequestId = nat

  /** What a request sends, and what its business step answers; a request executes at most once. */
  datatype Request = Request(key: G.Key, body: nat, answer: Result<nat>)

  datatype Row = Row(owner: RequestId, record: G.Record<nat, nat>)

  /** Where a request stands in its route. */
  datatype Phase =
    | Arrived
    | Inserted
    | Executed(response: nat)
    | Finished(response: nat)
    | Won(response: nat)
    | Lost(seen: Row)
    | Refused(error: Error)
    | Crashed

  datatype World = World(
    committed: map<G.Key, Row>,
    inFlight: map<G.Key, Row>,
    phases: map<RequestId, Phase>,
    effects: seq<RequestId>,
    log: seq<RequestId>)

  datatype Event =
    | Insert(r: RequestId)
    | Execute(r: RequestId)
    | Finish(r: RequestId)
    | Commit(r: RequestId)
    | Crash(r: RequestId)

  const START := World(map[], map[], map[], [], [])

  function PhaseOf(w: World, r: RequestId): Phase {
    if r in w.phases then w.phases[r] else Arrived
  }

  /** Between insert and commit the transaction holds its key. */
  predicate Holds(p: Phase) {
    p.Inserted? || p.Executed? || p.Finished?
  }

  /** The request has its answer. */
  predicate Decided(p: Phase) {
    p.Won? || p.Lost? || p.Refused?
  }

  function Step(reqs: RequestId -> Request, w: World, e: Event): World {
    var r := e.r;
    var k, p := reqs(r).key, PhaseOf(w, r);
    match e
    case Insert(_) =>
      if !p.Arrived? then w
      else if k in w.committed then w.(phases := w.phases[r := Lost(w.committed[k])], log := w.log + [r])
      else if k in w.inFlight then w
      else w.(inFlight := w.inFlight[k := Row(r, G.Record(reqs(r).body, G.InProgress, None))], phases := w.phases[r := Inserted])
    case Execute(_) =>
      if !p.Inserted? then w
      else (match reqs(r).answer
            case Ok(v) => w.(phases := w.phases[r := Executed(v)])
            case Err(error) => w.(inFlight := w.inFlight - {k}, phases := w.phases[r := Refused(error)], log := w.log + [r]))
    case Finish(_) =>
      if !p.Executed? || k !in w.inFlight then w
      else
        var row := w.inFlight[k];
        w.(inFlight := w.inFlight[k := row.(record := row.record.(status := G.Completed, response := Some(p.response)))],
           phases := w.phases[r := Finished(p.response)])
    case Commit(_) =>
      if !p.Finished? || k !in w.inFlight then w
      else World(w.committed[k := w.inFlight[k]], w.inFlight - {k}, w.phases[r := Won(p.response)], w.effects + [r], w.log + [r])
    case Crash(_) =>
      if !Holds(p) then w
      else w.(inFlight := w.inFlight - {k}, phases := w.phases[r := Crashed])
  }

  function Run(reqs: RequestId -> Request, events: seq<Event>): World {
    if events == [] then START else Step(reqs, Run(reqs, events[..|events| - 1]), events[|events| - 1])
  }

  ghost predicate HolderOk(reqs: RequestId -> Request, w: World, r: RequestId) {
    var p, k := PhaseOf(w, r), reqs(r).key;
    && (Holds(p) ==> k in w.inFlight && w.inFlight[k].owner == r && w.inFlight[k].record.body == reqs(r).body)
    && (p.Executed? || p.Finished? || p.Won? ==> reqs(r).answer == Ok(p.response))
    && (p.Finished? ==> w.inFlight[k] == Row(r, G.Record(reqs(r).body, G.Completed, Some(p.response))))
    && (p.Won? ==> k in w.committed && w.committed[k] == Row(r, G.Record(reqs(r).body, G.Completed, Some(p.response))))
    && (p.Lost? ==> k in w.committed && w.committed[k] == p.seen)
    && (r in w.effects <==> p.Won?)
    && (r in w.log <==> Decided(p))
  }

  ghost predicate Inv(reqs: RequestId -> Request, w: World) {
    && (forall r :: HolderOk(reqs, w, r))
    && (forall k :: k in w.inFlight ==> k !in w.committed && Holds(PhaseOf(w, w.inFlight[k].owner)) && reqs(w.inFlight[k].owner).key == k)
    && (forall k :: k in w.committed ==> PhaseOf(w, w.committed[k].owner).Won? && reqs(w.committed[k].owner).key == k)
    && Distinct(w.effects) && Distinct(w.log)
  }

  /** Each step changes the standing of its own request only, and of no other request's key. */
  lemma StepKeepsHolders(reqs: RequestId -> Request, w: World, e: Event, r: RequestId)
    requires Inv(reqs, w)
    ensures HolderOk(reqs, Step(reqs, w, e), r)
  {
    assert HolderOk(reqs, w, e.r);
    assert HolderOk(reqs, w, r);
  }

  lemma StepKeepsRows(reqs: RequestId -> Request, w: World, e: Event, k: G.Key)
    requires Inv(reqs, w)
    ensures var t := Step(reqs, w, e);
            && (k in t.inFlight ==>
                  k !in t.committed && Holds(PhaseOf(t, t.inFlight[k].owner)) && reqs(t.inFlight[k].owner).key == k)
            && (k in t.committed ==> PhaseOf(t, t.committed[k].owner).Won? && reqs(t.committed[k].owner).key == k)
  {
    assert HolderOk(reqs, w, e.r);
  }

  lemma StepKeepsInv(reqs: RequestId -> Request, w: World, e: Event)
    requires Inv(reqs, w)
    ensures Inv(reqs, Step(reqs, w, e))
  {
    forall r ensures HolderOk(reqs, Step(reqs, w, e), r) {
      StepKeepsHolders(reqs, w, e, r);
    }
    forall k: G.Key {
      StepKeepsRows(reqs, w, e, k);
    }
    assert HolderOk(reqs, w, e.r);
  }

  lemma {:induction false} RunKeepsInv(reqs: RequestId -> Request, events: seq<Event>)
    ensures Inv(reqs, Run(reqs, events))
    decreases |events|
  {
    if events != [] {
      RunKeepsInv(reqs, events[..|events| - 1]);
      StepKeepsInv(reqs, Run(reqs, events[..|events| - 1]), events[|events| - 1]);
    }
  }

  /** Over every interleaving: per key at most one request executes, and at most one commits its effect. */
  lemma ExactlyOnceUnderRaces(reqs: RequestId -> Request, events: seq<Event>, r: RequestId, q: RequestId)
    requires r != q && reqs(r).key == reqs(q).key
    ensures var w := Run(reqs, events);
            && !(Holds(PhaseOf(w, r)) && Holds(PhaseOf(w, q)))
            && !(r in w.effects && q in w.effects)
            && !(Holds(PhaseOf(w, r)) && q in w.effects)
            && multiset(w.effects)[r] <= 1
  {
    RunKeepsInv(reqs, events);
    var w := Run(reqs, events);
    assert HolderOk(reqs, w, r) && HolderOk(reqs, w, q);
    DistinctCountsOnce(w.effects, r);
  }

  lemma {:induction false} DistinctCountsOnce<T>(xs: seq<T>, x: T)
    requires Distinct(xs)
    ensures multiset(xs)[x] <= 1
    decreases |xs|
  {
    if xs != [] {
      var init, last := xs[..|xs| - 1], xs[|xs| - 1];
      assert xs == init + [last];
      DistinctCountsOnce(init, x);
      if last == x {
        assert x !in init;
      }
    }
  }

  /** No committed row is still in progress, so a loser reads the finished response of the one winner. */
  lemma LosersReadFinishedRows(reqs: RequestId -> Request, events: seq<Event>, r: RequestId)
    requires PhaseOf(Run(reqs, events), r).Lost?
    ensures var w := Run(reqs, events);
            var seen := PhaseOf(w, r).seen;
            && seen.owner in w.effects
            && reqs(seen.owner).key == reqs(r).key
            && PhaseOf(w, seen.owner).Won?
            && seen.record == G.Record(reqs(seen.owner).body, G.Completed, Some(PhaseOf(w, seen.owner).response))
  {
    RunKeepsInv(reqs, events);
    var w := Run(reqs, events);
    assert HolderOk(reqs, w, r);
    assert HolderOk(reqs, w, PhaseOf(w, r).seen.owner);
  }

  lemma CommittedRowsAreCompleted(reqs: RequestId -> Request, events: seq<Event>, k: G.Key)
    requires k in Run(reqs, events).committed
    ensures Run(reqs, events).committed[k].record.status == G.Completed
  {
    RunKeepsInv(reqs, events);
    assert HolderOk(reqs, Run(reqs, events), Run(reqs, events).committed[k].owner);
  }

  /** A request whose transaction ends without a commit frees its key: the next insert under it goes through. */
  lemma RaisedKeyIsFree(reqs: RequestId -> Request, events: seq<Event>, r: RequestId, next: RequestId)
    requires Holds(PhaseOf(Run(reqs, events), r)) && next != r && reqs(next).key == reqs(r).key
    requires PhaseOf(Run(reqs, events), next).Arrived?
    ensures var w := Run(reqs, events);
            && Step(reqs, w, Insert(next)) == w
            && PhaseOf(Step(reqs, Step(reqs, w, Crash(r)), Insert(next)), next).Inserted?
            && (PhaseOf(w, r).Inserted? && reqs(r).answer.Err? ==>
                  PhaseOf(Step(reqs, Step(reqs, w, Execute(r)), Insert(next)), next).Inserted?)
  {
    RunKeepsInv(reqs, events);
    assert HolderOk(reqs, Run(reqs, events), r);
  }

  // ---- Refinement of the serial guard ------------------------------------------------------

  type Call = G.Request<nat, RequestId>

  /** The request as the serial guard sees it. */
  function CallOf(reqs: RequestId -> Request, r: RequestId): Call {
    var k := reqs(r).key;
    G.Keyed(k.user, k.operation, Some(k.key), reqs(r).body, r)
  }

  function Calls(reqs: RequestId -> Request, log: seq<RequestId>): (calls: seq<Call>)
    ensures |calls| == |log|
  {
    if log == [] then [] else Calls(reqs, log[..|log| - 1]) + [CallOf(reqs, log[|log| - 1])]
  }

  /** The business step of the serial run: the request's own answer, and its effect on record. */
  function Business(reqs: RequestId -> Request): (seq<RequestId>, Call) -> Result<(seq<RequestId>, nat)> {
    (effects: seq<RequestId>, q: Call) =>
      match reqs(q.rest).answer
      case Ok(v) => Ok((effects + [q.rest], v))
      case Err(e) => Err(e)
  }

  /** The committed rows as records of the guard. */
  function Records(committed: map<G.Key, Row>): map<G.Key, G.Record<nat, nat>> {
    map k | k in committed :: committed[k].record
  }

  /** The answer that a decided request gives its caller. */
  function OutcomeOf(p: Phase, body: nat): G.Outcome<nat>
    requires Decided(p)
  {
    match p
    case Won(v) => G.Committed(v)
    case Lost(seen) => if seen.record.body != body then G.KeyReused else G.Replayed(seen.record.response)
    case Refused(e) => G.Rejected(e)
  }

  /** The requests with their answers, run one after the other through the serial guard. */
  function SerialRun(reqs: RequestId -> Request, log: seq<RequestId>): G.Database<seq<RequestId>, nat, nat> {
    G.Run(Business(reqs), G.Database([], map[]), Calls(reqs, log))
  }

  function SerialOutcomes(reqs: RequestId -> Request, log: seq<RequestId>): (outs: seq<G.Outcome<nat>>)
    ensures |outs| == |log|
  {
    G.Outcomes(Business(reqs), G.Database([], map[]), Calls(reqs, log))
  }

  /** The route rejects an empty key before it inserts anything. */
  ghost predicate KeysGiven(reqs: RequestId -> Request) {
    forall r :: reqs(r).key.key != ""
  }

  lemma SerialNext(reqs: RequestId -> Request, log: seq<RequestId>, r: RequestId)
    ensures var next := G.Guarded(Business(reqs), SerialRun(reqs, log), CallOf(reqs, r));
            && SerialRun(reqs, log + [r]) == next.0
            && SerialOutcomes(reqs, log + [r]) == SerialOutcomes(reqs, log) + [next.1]
  {
    var calls, q := Calls(reqs, log), CallOf(reqs, r);
    assert (log + [r])[..|log|] == log;
    assert Calls(reqs, log + [r]) == calls + [q];
    assert (calls + [q])[..|calls|] == calls;
    G.OutcomesSnoc(Business(reqs), G.Database([], map[]), calls, q);
  }

  /** The committed tables are those of the serial run, and so are the answers. */
  ghost predicate Refines(reqs: RequestId -> Request, w: World) {
    && SerialRun(reqs, w.log) == G.Database(w.effects, Records(w.committed))
    && AnswersAre(reqs, w.phases, w.log, SerialOutcomes(reqs, w.log))
  }

  predicate AnswerIs(reqs: RequestId -> Request, phases: map<RequestId, Phase>, r: RequestId, out: G.Outcome<nat>) {
    r in phases && Decided(phases[r]) && out == OutcomeOf(phases[r], reqs(r).body)
  }

  predicate AnswersAre(reqs: RequestId -> Request, phases: map<RequestId, Phase>, log: seq<RequestId>, outs: seq<G.Outcome<nat>>)
    requires |outs| == |log|
  {
    forall i :: 0 <= i < |log| ==> AnswerIs(reqs, phases, log[i], outs[i])
  }

  lemma AnswersGrow(reqs: RequestId -> Request, phases: map<RequestId, Phase>, phases': map<RequestId, Phase>,
                    log: seq<RequestId>, outs: seq<G.Outcome<nat>>, r: RequestId, out: G.Outcome<nat>)
    requires |outs| == |log| && AnswersAre(reqs, phases, log, outs)
    requires forall q :: q in log && q in phases ==> q in phases' && phases'[q] == phases[q]
    requires AnswerIs(reqs, phases', r, out)
    ensures AnswersAre(reqs, phases', log + [r], outs + [out])
  {
    var log', outs' := log + [r], outs + [out];
    forall i | 0 <= i < |log'| ensures AnswerIs(reqs, phases', log'[i], outs'[i]) {
      if i < |log| {
        assert AnswerIs(reqs, phases, log[i], outs[i]) && log'[i] == log[i] && outs'[i] == outs[i];
      }
    }
  }

  /** An answer once given stays. */
  lemma DecisionsStay(reqs: RequestId -> Request, w: World, e: Event, r: RequestId)
    requires Inv(reqs, w) && r in w.log
    ensures r in w.phases && r in Step(reqs, w, e).phases && Step(reqs, w, e).phases[r] == w.phases[r]
  {
    assert HolderOk(reqs, w, r);
  }

  /** What the serial guard answers the request that this step decides. */
  lemma DecisionIsGuarded(reqs: RequestId -> Request, w: World, e: Event)
    requires Inv(reqs, w) && KeysGiven(reqs)
    ensures var t := Step(reqs, w, e);
            if t.log == w.log then t.effects == w.effects && t.committed == w.committed
            else
              && t.log == w.log + [e.r] && e.r !in w.log && Decided(PhaseOf(t, e.r))
              && G.Guarded(Business(reqs), G.Database(w.effects, Records(w.committed)), CallOf(reqs, e.r))
                   == (G.Database(t.effects, Records(t.committed)), OutcomeOf(PhaseOf(t, e.r), reqs(e.r).body))
  {
    assert HolderOk(reqs, w, e.r);
    var t := Step(reqs, w, e);
    assert reqs(e.r).key.key != "";
    if e.Commit? && t.log != w.log {
      assert Records(t.committed) == Records(w.committed)[reqs(e.r).key := t.committed[reqs(e.r).key].record];
    }
  }

  /** Answers given in `w` are still the answers in `t`. */
  predicate Kept(w: World, t: World) {
    forall q :: q in w.log && q in w.phases ==> q in t.phases && t.phases[q] == w.phases[q]
  }

  lemma DecidingRefines(reqs: RequestId -> Request, w: World, t: World, r: RequestId)
    requires Refines(reqs, w) && Kept(w, t) && t.log == w.log + [r]
    requires G.Guarded(Business(reqs), G.Database(w.effects, Records(w.committed)), CallOf(reqs, r)).0
          == G.Database(t.effects, Records(t.committed))
    requires AnswerIs(reqs, t.phases, r,
               G.Guarded(Business(reqs), G.Database(w.effects, Records(w.committed)), CallOf(reqs, r)).1)
    ensures Refines(reqs, t)
  {
    SerialNext(reqs, w.log, r);
    var out := G.Guarded(Business(reqs), SerialRun(reqs, w.log), CallOf(reqs, r)).1;
    AnswersGrow(reqs, w.phases, t.phases, w.log, SerialOutcomes(reqs, w.log), r, out);
  }

  lemma WaitingRefines(reqs: RequestId -> Request, w: World, t: World)
    requires Refines(reqs, w) && Kept(w, t) && t.log == w.log && t.effects == w.effects && t.committed == w.committed
    ensures Refines(reqs, t)
  {
    AnswersKeep(reqs, w.phases, t.phases, w.log, SerialOutcomes(reqs, w.log));
  }

  lemma StepRefines(reqs: RequestId -> Request, w: World, e: Event, t: World)
    requires Inv(reqs, w) && KeysGiven(reqs) && Refines(reqs, w) && t == Step(reqs, w, e)
    ensures Refines(reqs, t)
  {
    assert Kept(w, t) by {
      forall r | r in w.log ensures r in w.phases && r in t.phases && t.phases[r] == w.phases[r] {
        DecisionsStay(reqs, w, e, r);
      }
    }
    DecisionIsGuarded(reqs, w, e);
    if t.log == w.log {
      WaitingRefines(reqs, w, t);
    } else {
      DecidingRefines(reqs, w, t, e.r);
    }
  }

  lemma AnswersKeep(reqs: RequestId -> Request, phases: map<RequestId, Phase>, phases': map<RequestId, Phase>,
                    log: seq<RequestId>, outs: seq<G.Outcome<nat>>)
    requires |outs| == |log| && AnswersAre(reqs, phases, log, outs)
    requires forall q :: q in log && q in phases ==> q in phases' && phases'[q] == phases[q]
    ensures AnswersAre(reqs, phases', log, outs)
  {
    forall i | 0 <= i < |log| ensures AnswerIs(reqs, phases', log[i], outs[i]) {
      assert AnswerIs(reqs, phases, log[i], outs[i]);
    }
  }

  /**
   * Every interleaving is the serial guard run over the decided requests, in the order of their decisions:
   * the same records, the same effects, and the same answer to each request. Requests that crashed or still
   * hold their key leave no trace.
   */
  lemma InterleavingsAreGuarded(reqs: RequestId -> Request, events: seq<Event>, r: RequestId)
    requires KeysGiven(reqs)
    ensures var w := Run(reqs, events);
            && SerialRun(reqs, w.log) == G.Database(w.effects, Records(w.committed))
            && AnswersAre(reqs, w.phases, w.log, SerialOutcomes(reqs, w.log))
            && Distinct(w.log)
            && (r in w.log <==> Decided(PhaseOf(w, r)))
  {
    RunKeepsInv(reqs, events);
    assert HolderOk(reqs, Run(reqs, events), r);
    RunRefines(reqs, events);
  }

  lemma {:induction false} RunRefines(reqs: RequestId -> Request, events: seq<Event>)
    requires KeysGiven(reqs)
    ensures Refines(reqs, Run(reqs, events))
    decreases |events|
  {
    if events != [] {
      var init := events[..|events| - 1];
      RunRefines(reqs, init);
      RunKeepsInv(reqs, init);
      StepRefines(reqs, Run(reqs, init), events[|events| - 1], Run(reqs, events));
    }
  }
}
