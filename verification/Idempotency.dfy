/**
 * Routes behind the idempotency guard and routes without it, one request after the other, for any business
 * step. The record of a guarded request is inserted before its step, finished after it, and committed with it.
 */
module Idempotency {
  import opened Prelude

  datatype Key = Key(user: nat, operation: string, key: string)

  /**
   * `key` is the header, which may be missing; bodies stand for their hashes. `rest` is what the route reads
   * besides the body, path parameters and outside answers: the guard never compares it.
   */
  datatype Request<B, C> =
    | Keyed(user: nat, operation: string, key: Option<string>, body: B, rest: C)
    | Unguarded(user: nat, operation: string, body: B, rest: C)

  datatype RecordStatus = InProgress | Completed

  datatype Record<B, R> = Record(body: B, status: RecordStatus, response: Option<R>)

  datatype Outcome<R> =
    | Committed(response: R)
    | Served(response: R)
    | Replayed(stored: Option<R>)
    | KeyRequired
    | KeyReused
    | Rejected(error: Error)

  datatype Database<S, B, R> = Database(state: S, records: map<Key, Record<B, R>>)

  predicate HasKey<B, C>(q: Request<B, C>) {
    q.Keyed? && q.key.Some? && q.key.value != ""
  }

  predicate LacksKey<B, C>(q: Request<B, C>) {
    q.Keyed? && !HasKey(q)
  }

  function KeyOf<B, C>(q: Request<B, C>): Key
    requires HasKey(q)
  {
    Key(q.user, q.operation, q.key.value)
  }

  /** One request as a transaction. */
  function Guarded<S, B(==), C, R>(f: (S, Request<B, C>) -> Result<(S, R)>, db: Database<S, B, R>, q: Request<B, C>)
    : (Database<S, B, R>, Outcome<R>)
  {
    if LacksKey(q) then (db, KeyRequired)
    else if q.Unguarded? then
      (match f(db.state, q)
       case Err(e) => (db, Rejected(e))
       case Ok(done) => (db.(state := done.0), Served(done.1)))
    else if KeyOf(q) in db.records then
      var record := db.records[KeyOf(q)];
      (db, if record.body != q.body then KeyReused else Replayed(record.response))
    else match f(db.state, q)
      case Err(e) => (db, Rejected(e))
      case Ok(done) =>
        (Database(done.0, db.records[KeyOf(q) := Record(q.body, Completed, Some(done.1))]), Committed(done.1))
  }

  function Run<S, B(==), C, R>(f: (S, Request<B, C>) -> Result<(S, R)>, db: Database<S, B, R>, reqs: seq<Request<B, C>>)
    : Database<S, B, R>
  {
    if reqs == [] then db else Guarded(f, Run(f, db, reqs[..|reqs| - 1]), reqs[|reqs| - 1]).0
  }

  function Outcomes<S, B(==), C, R>(f: (S, Request<B, C>) -> Result<(S, R)>, db: Database<S, B, R>, reqs: seq<Request<B, C>>)
    : (outs: seq<Outcome<R>>)
    ensures |outs| == |reqs|
  {
    if reqs == [] then []
    else
      var init := reqs[..|reqs| - 1];
      Outcomes(f, db, init) + [Guarded(f, Run(f, db, init), reqs[|reqs| - 1]).1]
  }

  /** The business steps alone, without keys; a step that raises changes nothing. */
  function Plain<S, B, C, R>(f: (S, Request<B, C>) -> Result<(S, R)>, state: S, reqs: seq<Request<B, C>>): S {
    if reqs == [] then state
    else
      var before := Plain(f, state, reqs[..|reqs| - 1]);
      match f(before, reqs[|reqs| - 1])
      case Ok(done) => done.0
      case Err(_) => before
  }

  /** Request `j` committed under the key that request `i` presents. */
  predicate CommittedBefore<B, C, R>(reqs: seq<Request<B, C>>, outs: seq<Outcome<R>>, j: nat, i: nat)
    requires |outs| == |reqs| && j < i < |reqs|
  {
    HasKey(reqs[j]) && HasKey(reqs[i]) && KeyOf(reqs[j]) == KeyOf(reqs[i]) && outs[j].Committed?
  }

  /** Request `i` is a duplicate: its key was committed by an earlier request of the run. */
  ghost predicate Duplicate<B, C, R>(reqs: seq<Request<B, C>>, outs: seq<Outcome<R>>, i: nat)
    requires |outs| == |reqs| && i < |reqs|
  {
    exists j :: 0 <= j < i && CommittedBefore(reqs, outs, j, i)
  }

  /** The requests that do not lack their key and are not duplicates. */
  ghost function Deduplicated<B, C, R>(reqs: seq<Request<B, C>>, outs: seq<Outcome<R>>): seq<Request<B, C>>
    requires |outs| == |reqs|
    decreases |reqs|
  {
    if reqs == [] then []
    else
      var last := |reqs| - 1;
      Deduplicated(reqs[..last], outs[..last]) +
      if !LacksKey(reqs[last]) && !Duplicate(reqs, outs, last) then [reqs[last]] else []
  }

  /** A record is what the one committed request under its key sent and got. */
  ghost predicate RecordsAre<B, C, R>(records: map<Key, Record<B, R>>, reqs: seq<Request<B, C>>, outs: seq<Outcome<R>>)
    requires |outs| == |reqs|
  {
    && (forall j :: 0 <= j < |reqs| && outs[j].Committed? ==>
          HasKey(reqs[j]) && KeyOf(reqs[j]) in records
          && records[KeyOf(reqs[j])] == Record(reqs[j].body, Completed, Some(outs[j].response)))
    && (forall k :: k in records ==> exists j :: 0 <= j < |reqs| && outs[j].Committed? && HasKey(reqs[j]) && KeyOf(reqs[j]) == k)
  }

  /** A committed request adds its record under a fresh key; any other outcome adds none. */
  lemma RecordsGrow<B, C, R>(records: map<Key, Record<B, R>>, reqs: seq<Request<B, C>>, outs: seq<Outcome<R>>, q: Request<B, C>, out: Outcome<R>)
    requires |outs| == |reqs| && RecordsAre(records, reqs, outs)
    requires out.Committed? ==> HasKey(q) && KeyOf(q) !in records
    ensures RecordsAre(if out.Committed? then records[KeyOf(q) := Record(q.body, Completed, Some(out.response))] else records,
                       reqs + [q], outs + [out])
  {
    var n, reqs', outs' := |reqs|, reqs + [q], outs + [out];
    assert forall j :: 0 <= j < n ==> reqs'[j] == reqs[j] && outs'[j] == outs[j];
    assert reqs'[n] == q && outs'[n] == out;
    forall k | k in records
      ensures exists j :: 0 <= j < |reqs'| && outs'[j].Committed? && HasKey(reqs'[j]) && KeyOf(reqs'[j]) == k
    {
      var j :| 0 <= j < n && outs[j].Committed? && HasKey(reqs[j]) && KeyOf(reqs[j]) == k;
      assert outs'[j].Committed? && reqs'[j] == reqs[j];
    }
  }

  lemma {:induction false} RunRecords<S, B, C, R>(f: (S, Request<B, C>) -> Result<(S, R)>, s: S, reqs: seq<Request<B, C>>)
    ensures RecordsAre(Run(f, Database(s, map[]), reqs).records, reqs, Outcomes(f, Database(s, map[]), reqs))
    decreases |reqs|
  {
    if reqs != [] {
      var db := Database(s, map[]);
      var init, q := reqs[..|reqs| - 1], reqs[|reqs| - 1];
      RunRecords(f, s, init);
      var before, outs := Run(f, db, init), Outcomes(f, db, init);
      RecordsGrow(before.records, init, outs, q, Guarded(f, before, q).1);
      assert reqs == init + [q];
      assert Outcomes(f, db, reqs) == outs + [Guarded(f, before, q).1];
      assert Run(f, db, reqs) == Guarded(f, before, q).0;
    }
  }

  /** The answer to request `i`, in terms of the earlier requests alone. */
  ghost predicate Answered<B, C, R>(reqs: seq<Request<B, C>>, outs: seq<Outcome<R>>, i: nat)
    requires |outs| == |reqs| && i < |reqs|
  {
    && (outs[i].KeyRequired? <==> LacksKey(reqs[i]))
    && (outs[i].Replayed? || outs[i].KeyReused? <==> Duplicate(reqs, outs, i))
    && (outs[i].Committed? ==> HasKey(reqs[i]))
    && (outs[i].Served? ==> reqs[i].Unguarded?)
    && (forall j :: 0 <= j < i && CommittedBefore(reqs, outs, j, i) ==>
          outs[i] == if reqs[j].body == reqs[i].body then Replayed(Some(outs[j].response)) else KeyReused)
  }

  lemma LastIsAnswered<S, B, C, R>(f: (S, Request<B, C>) -> Result<(S, R)>, db: Database<S, B, R>, reqs: seq<Request<B, C>>, outs: seq<Outcome<R>>, q: Request<B, C>)
    requires |outs| == |reqs| && RecordsAre(db.records, reqs, outs)
    ensures Answered(reqs + [q], outs + [Guarded(f, db, q).1], |reqs|)
  {
    var n := |reqs|;
    var reqs', outs' := reqs + [q], outs + [Guarded(f, db, q).1];
    forall j | 0 <= j < n && CommittedBefore(reqs', outs', j, n)
      ensures KeyOf(q) in db.records && db.records[KeyOf(q)] == Record(reqs[j].body, Completed, Some(outs[j].response))
    {
      assert reqs'[j] == reqs[j] && outs'[j] == outs[j];
    }
    if HasKey(q) && KeyOf(q) in db.records {
      var j :| 0 <= j < n && outs[j].Committed? && HasKey(reqs[j]) && KeyOf(reqs[j]) == KeyOf(q);
      assert CommittedBefore(reqs', outs', j, n);
    }
  }

  lemma AnsweredInPrefix<B, C, R>(reqs: seq<Request<B, C>>, outs: seq<Outcome<R>>, i: nat)
    requires |outs| == |reqs| && i < |reqs|
    ensures Answered(reqs[..i + 1], outs[..i + 1], i) <==> Answered(reqs, outs, i)
  {
    var reqs', outs' := reqs[..i + 1], outs[..i + 1];
    assert forall j :: 0 <= j <= i ==> reqs'[j] == reqs[j] && outs'[j] == outs[j];
    assert forall j :: 0 <= j < i ==> (CommittedBefore(reqs', outs', j, i) <==> CommittedBefore(reqs, outs, j, i));
    assert Duplicate(reqs', outs', i) <==> Duplicate(reqs, outs, i);
  }

  /**
   * Duplicates replay the first response, another body under the key is refused, and nothing else is
   * answered from the records.
   */
  lemma AnswersOfARun<S, B, C, R>(f: (S, Request<B, C>) -> Result<(S, R)>, s: S, reqs: seq<Request<B, C>>, i: nat)
    requires i < |reqs|
    ensures Answered(reqs, Outcomes(f, Database(s, map[]), reqs), i)
  {
    var db := Database(s, map[]);
    var init, q := reqs[..i], reqs[i];
    var before, upTo := Outcomes(f, db, init), Outcomes(f, db, reqs[..i + 1]);
    assert reqs[..i + 1] == init + [q];
    RunRecords(f, s, init);
    LastIsAnswered(f, Run(f, db, init), init, before, q);
    OutcomesSnoc(f, db, init, q);
    OutcomesOfPrefix(f, db, reqs, i + 1);
    assert Answered(reqs[..i + 1], upTo, i);
    AnsweredInPrefix(reqs, Outcomes(f, db, reqs), i);
  }

  lemma OutcomesSnoc<S, B, C, R>(f: (S, Request<B, C>) -> Result<(S, R)>, db: Database<S, B, R>, reqs: seq<Request<B, C>>, q: Request<B, C>)
    ensures Outcomes(f, db, reqs + [q]) == Outcomes(f, db, reqs) + [Guarded(f, Run(f, db, reqs), q).1]
  {
    assert (reqs + [q])[..|reqs|] == reqs;
  }

  lemma {:induction false} OutcomesOfPrefix<S, B, C, R>(f: (S, Request<B, C>) -> Result<(S, R)>, db: Database<S, B, R>, reqs: seq<Request<B, C>>, i: nat)
    requires i <= |reqs|
    ensures Outcomes(f, db, reqs[..i]) == Outcomes(f, db, reqs)[..i]
    decreases |reqs|
  {
    if i < |reqs| {
      var init := reqs[..|reqs| - 1];
      assert init[..i] == reqs[..i];
      OutcomesOfPrefix(f, db, init, i);
    } else {
      assert reqs[..i] == reqs;
    }
  }

  /**
   * Only a request of the same user, for the same operation, with the same key can stand behind a replay or a
   * refusal, and it sent the same body exactly if it is a replay.
   */
  lemma AnsweredBySameKey<S, B, C, R>(f: (S, Request<B, C>) -> Result<(S, R)>, s: S, reqs: seq<Request<B, C>>, i: nat) returns (j: nat)
    requires i < |reqs|
    requires var out := Outcomes(f, Database(s, map[]), reqs)[i]; out.Replayed? || out.KeyReused?
    ensures var outs := Outcomes(f, Database(s, map[]), reqs);
            && j < i && reqs[i].Keyed? && reqs[j].Keyed? && outs[j].Committed?
            && reqs[j].user == reqs[i].user && reqs[j].operation == reqs[i].operation && reqs[j].key == reqs[i].key
            && (outs[i].Replayed? <==> reqs[j].body == reqs[i].body)
            && (outs[i].Replayed? ==> outs[i].stored == Some(outs[j].response))
  {
    var outs := Outcomes(f, Database(s, map[]), reqs);
    AnswersOfARun(f, s, reqs, i);
    j :| 0 <= j < i && CommittedBefore(reqs, outs, j, i);
  }

  /** A committed request answers every later one of the same user, operation and key. */
  lemma SameKeyIsAnswered<S, B, C, R>(f: (S, Request<B, C>) -> Result<(S, R)>, s: S, reqs: seq<Request<B, C>>, j: nat, i: nat)
    requires j < i < |reqs| && reqs[i].Keyed? && reqs[j].Keyed? && Outcomes(f, Database(s, map[]), reqs)[j].Committed?
    requires reqs[j].user == reqs[i].user && reqs[j].operation == reqs[i].operation && reqs[j].key == reqs[i].key
    ensures var outs := Outcomes(f, Database(s, map[]), reqs);
            outs[i] == if reqs[j].body == reqs[i].body then Replayed(Some(outs[j].response)) else KeyReused
  {
    AnswersOfARun(f, s, reqs, j);
    AnswersOfARun(f, s, reqs, i);
    assert CommittedBefore(reqs, Outcomes(f, Database(s, map[]), reqs), j, i);
  }

  /** At most one request commits under a key. */
  lemma OneCommitPerKey<S, B, C, R>(f: (S, Request<B, C>) -> Result<(S, R)>, s: S, reqs: seq<Request<B, C>>, j: nat, i: nat)
    requires j < i < |reqs|
    ensures !(CommittedBefore(reqs, Outcomes(f, Database(s, map[]), reqs), j, i)
              && Outcomes(f, Database(s, map[]), reqs)[i].Committed?)
  {
    AnswersOfARun(f, s, reqs, i);
  }

  /** Replay is deduplication: the guarded run means the unguarded run without the duplicates. */
  lemma {:induction false} GuardIsDeduplication<S, B, C, R>(f: (S, Request<B, C>) -> Result<(S, R)>, s: S, reqs: seq<Request<B, C>>)
    ensures Run(f, Database(s, map[]), reqs).state
         == Plain(f, s, Deduplicated(reqs, Outcomes(f, Database(s, map[]), reqs)))
    decreases |reqs|
  {
    if reqs != [] {
      var db := Database(s, map[]);
      var last := |reqs| - 1;
      var init, outs := reqs[..last], Outcomes(f, db, reqs);
      GuardIsDeduplication(f, s, init);
      AnswersOfARun(f, s, reqs, last);
      assert outs[..last] == Outcomes(f, db, init);
      assert outs[last] == Guarded(f, Run(f, db, init), reqs[last]).1;
      var kept := Deduplicated(init, outs[..last]);
      if !LacksKey(reqs[last]) && !Duplicate(reqs, outs, last) {
        PlainSnoc(f, s, kept, reqs[last]);
        assert !outs[last].KeyRequired? && !outs[last].Replayed? && !outs[last].KeyReused?;
      } else {
        assert kept + [] == kept;
        assert outs[last].KeyRequired? || outs[last].Replayed? || outs[last].KeyReused?;
      }
    }
  }

  lemma PlainSnoc<S, B, C, R>(f: (S, Request<B, C>) -> Result<(S, R)>, s: S, reqs: seq<Request<B, C>>, q: Request<B, C>)
    ensures var before := Plain(f, s, reqs);
            Plain(f, s, reqs + [q]) == match f(before, q) case Ok(done) => done.0 case Err(_) => before
  {
    assert (reqs + [q])[..|reqs|] == reqs;
  }

  predicate SameKey<B, C>(q: Request<B, C>, r: Request<B, C>) {
    HasKey(q) && HasKey(r) && KeyOf(q) == KeyOf(r)
  }

  /** The request reached its business step. */
  predicate Executed<R>(out: Outcome<R>) {
    out.Committed? || out.Rejected?
  }

  lemma NoCommitMeansRejected<S, B, C, R>(f: (S, Request<B, C>) -> Result<(S, R)>, s: S, reqs: seq<Request<B, C>>, i: nat, j: nat)
    requires j < i < |reqs| && SameKey(reqs[j], reqs[i])
    requires !Duplicate(reqs, Outcomes(f, Database(s, map[]), reqs), i)
    ensures Outcomes(f, Database(s, map[]), reqs)[j].Rejected?
  {
    var outs := Outcomes(f, Database(s, map[]), reqs);
    AnswersOfARun(f, s, reqs, j);
    assert !CommittedBefore(reqs, outs, j, i);
    if Duplicate(reqs, outs, j) {
      var k :| 0 <= k < j && CommittedBefore(reqs, outs, k, j);
      assert CommittedBefore(reqs, outs, k, i);
    }
  }

  /**
   * A failure leaves its key free, for as long as nothing commits: a request is executed exactly if every
   * earlier request under its key was rejected, and then on the tables of the run without duplicates.
   */
  lemma RejectionLeavesKeyFree<S, B, C, R>(f: (S, Request<B, C>) -> Result<(S, R)>, s: S, reqs: seq<Request<B, C>>, i: nat)
    requires i < |reqs| && HasKey(reqs[i])
    ensures var outs := Outcomes(f, Database(s, map[]), reqs);
            && (Executed(outs[i]) <==> forall j :: 0 <= j < i && SameKey(reqs[j], reqs[i]) ==> outs[j].Rejected?)
            && (Executed(outs[i]) ==>
                  match f(Plain(f, s, Deduplicated(reqs[..i], outs[..i])), reqs[i])
                  case Ok(done) => outs[i] == Committed(done.1)
                  case Err(e) => outs[i] == Rejected(e))
  {
    var db, outs := Database(s, map[]), Outcomes(f, Database(s, map[]), reqs);
    AnswersOfARun(f, s, reqs, i);
    OutcomeAt(f, db, reqs, i);
    GuardIsDeduplication(f, s, reqs[..i]);
    OutcomesOfPrefix(f, db, reqs, i);
    forall j | 0 <= j < i && SameKey(reqs[j], reqs[i]) && !Duplicate(reqs, outs, i) ensures outs[j].Rejected? {
      NoCommitMeansRejected(f, s, reqs, i, j);
    }
    if Duplicate(reqs, outs, i) {
      var j :| 0 <= j < i && CommittedBefore(reqs, outs, j, i);
      assert SameKey(reqs[j], reqs[i]) && outs[j].Committed?;
    }
  }

  lemma OutcomeAt<S, B, C, R>(f: (S, Request<B, C>) -> Result<(S, R)>, db: Database<S, B, R>, reqs: seq<Request<B, C>>, i: nat)
    requires i < |reqs|
    ensures Outcomes(f, db, reqs)[i] == Guarded(f, Run(f, db, reqs[..i]), reqs[i]).1
  {
    OutcomesOfPrefix(f, db, reqs, i + 1);
    assert reqs[..i + 1] == reqs[..i] + [reqs[i]];
    OutcomesSnoc(f, db, reqs[..i], reqs[i]);
  }

  // ---- The guard as it runs ----------------------------------------------------------------

  /** A guarded route: the session's rows beside the committed ones. */
  class Route<S, B(==), C, R> {
    const business: (S, Request<B, C>) -> Result<(S, R)>
    var committed: Database<S, B, R>
    var records: map<Key, Record<B, R>>
    var state: S

    constructor (business: (S, Request<B, C>) -> Result<(S, R)>, start: S)
      ensures this.business == business && committed == Database(start, map[])
    {
      this.business := business;
      committed := Database(start, map[]);
      records, state := map[], start;
    }

    /** Marks the record of this request completed, with the response to replay. */
    method FinishRecord(k: Key, response: R)
      requires k in records
      modifies this`records
      ensures records == old(records)[k := Record(old(records)[k].body, Completed, Some(response))]
    {
      records := records[k := records[k].(status := Completed)];
      records := records[k := records[k].(response := Some(response))];
    }

    method Handle(q: Request<B, C>) returns (outcome: Outcome<R>)
      requires q.Keyed?
      modifies this
      ensures (committed, outcome) == Guarded(business, old(committed), q)
      ensures outcome == KeyRequired <==> q.key.None? || q.key.value == ""
      ensures q.key.Some? && q.key.value != "" && Key(q.user, q.operation, q.key.value) in old(committed).records ==>
        var record := old(committed).records[Key(q.user, q.operation, q.key.value)];
        committed == old(committed)
        && outcome == if record.body == q.body then Replayed(record.response) else KeyReused
      ensures q.key.Some? && q.key.value != "" && Key(q.user, q.operation, q.key.value) !in old(committed).records ==>
        match business(old(committed).state, q)
        case Err(e) => outcome == Rejected(e) && committed == old(committed)
        case Ok(done) =>
          && outcome == Committed(done.1) && committed.state == done.0
          && committed.records == old(committed).records[
               Key(q.user, q.operation, q.key.value) := Record(q.body, Completed, Some(done.1))]
    {
      records, state := committed.records, committed.state;
      if q.key.None? || q.key.value == "" {
        return KeyRequired;
      }
      var k := KeyOf(q);
      if k in records {
        var existing := committed.records[k];
        if existing.body != q.body {
          return KeyReused;
        }
        return Replayed(existing.response);
      }
      records := records[k := Record(q.body, InProgress, None)];
      var step := business(state, q);
      if step.Err? {
        return Rejected(step.error);
      }
      state := step.value.0;
      FinishRecord(k, step.value.1);
      assert records == committed.records[k := Record(q.body, Completed, Some(step.value.1))];
      committed := Database(state, records);
      outcome := Committed(step.value.1);
    }
  }
}
