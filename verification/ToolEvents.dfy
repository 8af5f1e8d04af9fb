/** The events of tool calls: none is ever left without the event that gets it executed or, once it is
    answered, the event that tells the agent. */
module ToolEvents {
  import opened Wrappers
  import opened Platform
  import opened Endings
  import opened Fencing
  import opened Join

  predicate IsEnded(call: Call) {
    call.status.CallCompleted? || call.status.CallFailed? || call.status.CallDenied?
  }

  /** A queued or running call was requested, and an answered one was announced. */
  predicate Told(db: Db, c: nat)
    requires c < |db.calls|
  {
    (db.calls[c].status.CallQueued? || db.calls[c].status.CallRunning? ==> ToolRequested(c) in db.outbox) &&
    (IsEnded(db.calls[c]) ==> ToolEnded(c) in db.outbox)
  }

  predicate AllTold(db: Db) {
    UniqueCalls(db.calls) && OwnersFit(db) && forall c :: 0 <= c < |db.calls| ==> Told(db, c)
  }

  lemma LifeKeepsTold(db: Db, s: LifeStep, c: nat)
    requires c < |db.calls| && Told(db, c)
    ensures c < |ApplyLife(db, s).calls| && Told(ApplyLife(db, s), c)
  {
    LifeFrame(db, s);
  }

  lemma CallKeepsTold(db: Db, s: CallStep, c: nat)
    requires OwnersFit(db) && c < |db.calls| && Told(db, c)
    ensures c < |ApplyCall(db, s).calls| && Told(ApplyCall(db, s), c)
  {
    CallFrame(db, s);
    assert OwnerFits(db.calls[c], db.issued);
    var after := ApplyCall(db, s);
    if |after.outbox| > |db.outbox| {
      assert after.outbox[|db.outbox|] in after.outbox;
    }
  }

  /** The event of request `k` names the row of its call id, and says whether there is work to do. */
  lemma RequestIsTold(db: Db, t: nat, a: nat, g: nat, requests: seq<Request>, k: nat, c: nat)
    requires UniqueCalls(db.calls) && Continuable(db, a, g) && k < |requests|
    requires c < |InsertCalls(db.calls, g, t, requests)|
    requires IsCallOf(InsertCalls(db.calls, g, t, requests)[c], g, requests[k].externalId)
    ensures var after := Apply(db, Turning(CompleteWithTools(t, a, g, requests)));
            after.calls == InsertCalls(db.calls, g, t, requests) && |after.outbox| == |db.outbox| + |requests| &&
            after.outbox[|db.outbox| + k] == if requests[k].reused == None then ToolRequested(c) else ToolEnded(c)
  {
    InsertKeepsUnique(db.calls, g, t, requests);
    FindIsUnique(InsertCalls(db.calls, g, t, requests), c);
    CommitWrites(db, t, a, g, requests);
  }

  lemma CommitWrites(db: Db, t: nat, a: nat, g: nat, requests: seq<Request>)
    requires Continuable(db, a, g)
    ensures var after := Apply(db, Turning(CompleteWithTools(t, a, g, requests)));
            after.calls == InsertCalls(db.calls, g, t, requests) &&
            after.outbox == db.outbox + RequestEvents(after.calls, g, requests)
  {
  }

  lemma CommitKeepsTold(db: Db, t: nat, a: nat, g: nat, requests: seq<Request>, c: nat)
    requires AllTold(db) && Continuable(db, a, g)
    requires c < |InsertCalls(db.calls, g, t, requests)|
    ensures Told(Apply(db, Turning(CompleteWithTools(t, a, g, requests))), c)
  {
    var after := Apply(db, Turning(CompleteWithTools(t, a, g, requests)));
    TurnFrame(db, CompleteWithTools(t, a, g, requests));
    if c < |db.calls| {
      assert Told(db, c);
    } else {
      var k := InsertedFromRequest(db.calls, g, t, requests, c);
      RequestIsTold(db, t, a, g, requests, k, c);
      assert after.outbox[|db.outbox| + k] in after.outbox;
    }
  }

  lemma OtherTurnKeepsTold(db: Db, s: TurnStep, c: nat)
    requires AllTold(db) && !(s.CompleteWithTools? && Continuable(db, s.a, s.g)) && c < |ApplyTurn(db, s).calls|
    ensures Told(ApplyTurn(db, s), c)
  {
    TurnFrame(db, s);
    assert ApplyTurn(db, s).calls == db.calls && Told(db, c);
  }

  lemma StepKeepsTold(db: Db, step: Step)
    requires AllTold(db)
    ensures AllTold(Apply(db, step))
  {
    StepKeepsUnique(db, step);
    StepKeepsOwners(db, step);
    RowsComeFromCommits(db, step);
    forall c | 0 <= c < |Apply(db, step).calls|
      ensures Told(Apply(db, step), c)
    {
      match step
      case Life(s) =>
        LifeFrame(db, s);
        LifeKeepsTold(db, s, c);
      case Turning(s) =>
        TurnFrame(db, s);
        if s.CompleteWithTools? && Continuable(db, s.a, s.g) {
          CommitKeepsTold(db, s.t, s.a, s.g, s.requests, c);
        } else {
          OtherTurnKeepsTold(db, s, c);
        }
      case Calling(s) =>
        CallFrame(db, s);
        CallKeepsTold(db, s, c);
    }
  }

  /** In every run each queued or running tool call has its ToolCallRequested event and each answered one
      the event that wakes the agent. */
  lemma {:induction false} RunKeepsTold(steps: seq<Step>)
    ensures AllTold(Run(Initial(), steps))
  {
    if steps != [] {
      RunKeepsTold(steps[..|steps| - 1]);
      StepKeepsTold(Run(Initial(), steps[..|steps| - 1]), steps[|steps| - 1]);
    }
  }

  /** A redelivered request is told again what it has become, and nothing else happens. */
  lemma ReannouncedAsItStands(db: Db, c: nat)
    requires c < |db.calls|
    ensures var after := Apply(db, Calling(Reannounce(c)));
            after == db.(outbox := after.outbox) && |after.outbox| == |db.outbox| + 1 && db.outbox <= after.outbox &&
            after.outbox[|db.outbox|] ==
            if db.calls[c].status.CallQueued? || db.calls[c].status.CallRunning? then ToolRequested(c) else ToolEnded(c)
  {
  }
}
