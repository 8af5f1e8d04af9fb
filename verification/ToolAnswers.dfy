/** From a tool's result to the agent's prompt: what a worker stored for a call is what every later ready
    list of its turn says for it. */
module ToolAnswers {
  import opened Wrappers
  import opened Platform
  import opened Endings
  import opened Fencing
  import opened Join

  /** Entry `k` of the list is the one entry for call `c`, with this text. */
  predicate SaysOnce(outputs: seq<Output>, k: nat, c: nat, text: string) {
    k < |outputs| && outputs[k] == Output(c, text) &&
    forall j :: 0 <= j < |outputs| && j != k ==> outputs[j].call != c
  }

  /** The list has one entry for the call, with this text. */
  predicate Says(outputs: seq<Output>, c: nat, text: string) {
    exists k :: 0 <= k < |outputs| && SaysOnce(outputs, k, c, text)
  }

  lemma {:induction false} OutputsBelow(calls: seq<Call>, t: nat)
    ensures forall k :: 0 <= k < |Outputs(calls, t)| ==> Outputs(calls, t)[k].call < |calls|
    ensures forall j, k :: 0 <= j < k < |Outputs(calls, t)| ==>
              Outputs(calls, t)[j].call < Outputs(calls, t)[k].call
  {
    if calls != [] {
      OutputsBelow(calls[..|calls| - 1], t);
    }
  }

  /** Creation order, and for every answered call of the turn exactly one entry: its stored result, or "{}"
      when the row has none or an empty one. */
  lemma {:induction false} StoredResultIsListed(calls: seq<Call>, t: nat, c: nat)
    requires AnsweredIn(calls, t, c)
    ensures Says(Outputs(calls, t), c,
                 match calls[c].result
                 case None => "{}"
                 case Some(result) => if |result| == 0 then "{}" else result)
    ensures forall j, k :: 0 <= j < k < |Outputs(calls, t)| ==>
              Outputs(calls, t)[j].call < Outputs(calls, t)[k].call
  {
    var n := |calls| - 1;
    var before, all := Outputs(calls[..n], t), Outputs(calls, t);
    OutputsBelow(calls, t);
    OutputsBelow(calls[..n], t);
    if c < n {
      StoredResultIsListed(calls[..n], t, c);
      var text := TextOf(calls[c]);
      var k :| 0 <= k < |before| && SaysOnce(before, k, c, text);
      assert SaysOnce(all, k, c, text);
    } else {
      assert SaysOnce(all, |before|, c, TextOf(calls[c]));
    }
  }

  /** No call of the turn is queued or running. */
  predicate AllEnded(calls: seq<Call>, t: nat) {
    forall c :: 0 <= c < |calls| && calls[c].turn == t ==> !calls[c].status.CallQueued? && !calls[c].status.CallRunning?
  }

  /** The result that the holder of a call stores is the text of that call in every list its turn ever
      gets, whatever runs before and afterwards; and there is a list whenever all calls have ended. */
  lemma FinalizedResultIsListed(steps: seq<Step>, c: nat, token: Token, answer: Answer, result: string,
                                more: seq<Step>)
    requires AllNameHolder(steps) && AllNameHolder(more)
    requires var db := Run(Initial(), steps); c < |db.calls| && HeldBy(db.calls[c], token)
    ensures var db := Run(Initial(), steps);
            var later := Run(Apply(db, Calling(FinalizeCall(c, Some(token), answer, result))), more);
            var ready := ReadyOutputs(later, db.calls[c].turn);
            (ready.Some? <==> AllEnded(later.calls, db.calls[c].turn)) &&
            (ready.Some? ==> Says(ready.value, c, if |result| == 0 then "{}" else result))
  {
    var db := Run(Initial(), steps);
    var step := Calling(FinalizeCall(c, Some(token), answer, result));
    RunKeepsOwners(Initial(), steps);
    StepKeepsOwners(db, step);
    EndedCallIsFinal(Apply(db, step), more, c);
    StoredResultIsListed(Run(Apply(db, step), more).calls, db.calls[c].turn, c);
  }

  /** So is the stored result that a request reuses: its row is complete from the start. */
  lemma ReusedResultIsListed(steps: seq<Step>, t: nat, a: nat, g: nat, requests: seq<Request>, k: nat,
                             result: string, more: seq<Step>) returns (c: nat)
    requires AllNameHolder(steps) && AllNameHolder(more) && k < |requests| && requests[k].reused == Some(result)
    requires Continuable(Run(Initial(), steps), a, g)
    requires FindCall(Run(Initial(), steps).calls, g, requests[k].externalId).None?
    requires forall j :: 0 <= j < k ==> requests[j].externalId != requests[k].externalId
    ensures var db := Run(Initial(), steps);
            var later := Run(Apply(db, Turning(CompleteWithTools(t, a, g, requests))), more);
            c >= |db.calls| && c < |later.calls| && later.calls[c].externalId == requests[k].externalId &&
            later.calls[c].status.CallCompleted? && later.calls[c].turn == t &&
            (ReadyOutputs(later, t).Some? ==>
              Says(ReadyOutputs(later, t).value, c, if |result| == 0 then "{}" else result))
  {
    var db := Run(Initial(), steps);
    var step := Turning(CompleteWithTools(t, a, g, requests));
    RunKeepsOwners(Initial(), steps);
    StepKeepsOwners(db, step);
    c := RequestInserts(db.calls, g, t, requests, k);
    CommittedCalls(db, t, a, g, requests);
    EndedRowIsListed(Apply(db, step), more, c);
  }

  lemma CommittedCalls(db: Db, t: nat, a: nat, g: nat, requests: seq<Request>)
    requires Continuable(db, a, g)
    ensures Apply(db, Turning(CompleteWithTools(t, a, g, requests))).calls == InsertCalls(db.calls, g, t, requests)
  {
  }

  /** A row that is answered now has its text in every later list. */
  lemma EndedRowIsListed(db: Db, more: seq<Step>, c: nat)
    requires OwnersFit(db) && AllNameHolder(more) && c < |db.calls| && AnsweredCall(db.calls[c].status)
    ensures var later := Run(db, more);
            c < |later.calls| && later.calls[c] == db.calls[c] &&
            (ReadyOutputs(later, db.calls[c].turn).Some? ==>
              Says(ReadyOutputs(later, db.calls[c].turn).value, c, TextOf(db.calls[c])))
  {
    EndedCallIsFinal(db, more, c);
    StoredResultIsListed(Run(db, more).calls, db.calls[c].turn, c);
  }

  lemma {:induction false} InsertedIdIsRequested(calls: seq<Call>, g: nat, t: nat, requests: seq<Request>, id: string)
    requires FindCall(calls, g, id).None? && forall j :: 0 <= j < |requests| ==> requests[j].externalId != id
    ensures FindCall(InsertCalls(calls, g, t, requests), g, id).None?
  {
    if requests != [] {
      InsertedIdIsRequested(calls, g, t, requests[..|requests| - 1], id);
    }
  }

  /** The first request of an unknown call id inserts its row. */
  lemma {:induction false} RequestInserts(calls: seq<Call>, g: nat, t: nat, requests: seq<Request>, k: nat)
      returns (c: nat)
    requires k < |requests| && FindCall(calls, g, requests[k].externalId).None?
    requires forall j :: 0 <= j < k ==> requests[j].externalId != requests[k].externalId
    ensures |calls| <= c < |InsertCalls(calls, g, t, requests)|
    ensures InsertCalls(calls, g, t, requests)[c] == NewCall(g, t, requests[k])
  {
    var n := |requests| - 1;
    var before := InsertCalls(calls, g, t, requests[..n]);
    assert InsertCalls(calls, g, t, requests) == InsertCall(before, g, t, requests[n]);
    if k < n {
      assert requests[..n][k] == requests[k];
      c := RequestInserts(calls, g, t, requests[..n], k);
    } else {
      InsertedIdIsRequested(calls, g, t, requests[..n], requests[k].externalId);
      c := |before|;
    }
  }
}
