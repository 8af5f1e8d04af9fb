/** Tool-call claims: owner tokens fence stale workers, and a terminal row is final. */
module Fencing {
  import opened Wrappers
  import opened Platform
  import opened Endings

  /** What the owner column means in each status; a cancelled row may keep its last owner. */
  predicate OwnerFits(call: Call, issued: set<Token>) {
    (call.owner.Some? ==> call.owner.value in issued) &&
    (call.status.CallQueued? || AnsweredCall(call.status) ==> call.owner.None?) &&
    (call.status.CallRunning? ==> call.owner.Some? && call.expires.Some?) &&
    (AnsweredCall(call.status) ==> call.result.Some?)
  }

  predicate OwnersFit(db: Db) {
    forall c :: 0 <= c < |db.calls| ==> OwnerFits(db.calls[c], db.issued)
  }

  lemma CallKeepsOwners(db: Db, step: CallStep)
    requires OwnersFit(db)
    ensures OwnersFit(ApplyCall(db, step))
  {
  }

  lemma StepKeepsOwners(db: Db, step: Step)
    requires OwnersFit(db)
    ensures OwnersFit(Apply(db, step))
  {
    match step
    case Life(s) => LifeFrame(db, s);
    case Turning(s) =>
      TurnFrame(db, s);
      if s.CompleteWithTools? {
        InsertedCallsBelong(db.calls, s.g, s.t, s.requests);
      }
    case Calling(s) => CallKeepsOwners(db, s);
  }

  lemma {:induction false} RunKeepsOwners(db: Db, steps: seq<Step>)
    requires OwnersFit(db)
    ensures OwnersFit(Run(db, steps))
  {
    if steps != [] {
      var n := |steps| - 1;
      RunKeepsOwners(db, steps[..n]);
      StepKeepsOwners(Run(db, steps[..n]), steps[n]);
    }
  }

  predicate EndedCallAt(db: Db, c: nat) {
    c < |db.calls| && !OpenCall(db.calls[c].status)
  }

  /** Every finalize names the token its worker was given, as the execution handler does. */
  predicate NamesHolder(step: Step) {
    step.Calling? && step.call.FinalizeCall? ==> step.call.holder.Some?
  }

  predicate AllNameHolder(steps: seq<Step>) {
    forall i :: 0 <= i < |steps| ==> NamesHolder(steps[i])
  }

  lemma StepKeepsEndedCall(db: Db, step: Step, c: nat)
    requires OwnersFit(db) && EndedCallAt(db, c) && NamesHolder(step)
    ensures c < |Apply(db, step).calls| && Apply(db, step).calls[c] == db.calls[c]
  {
    assert OwnerFits(db.calls[c], db.issued);
  }

  /** The status, result and every other column of a terminal tool call never change again. */
  lemma {:induction false} EndedCallIsFinal(db: Db, steps: seq<Step>, c: nat)
    requires OwnersFit(db) && EndedCallAt(db, c) && AllNameHolder(steps)
    ensures c < |Run(db, steps).calls| && Run(db, steps).calls[c] == db.calls[c]
  {
    if steps != [] {
      var n := |steps| - 1;
      EndedCallIsFinal(db, steps[..n], c);
      RunKeepsOwners(db, steps[..n]);
      StepKeepsEndedCall(Run(db, steps[..n]), steps[n], c);
    }
  }

  /** The finalize statement itself only refuses cancelled rows when no holder is named: a terminal
      row is written again exactly when it is answered and the caller passes no token. */
  lemma EndedCallRewrittenIff(db: Db, c: nat, holder: Option<Token>, answer: Answer, result: string)
    requires OwnersFit(db) && EndedCallAt(db, c)
    ensures var after := ApplyCall(db, FinalizeCall(c, holder, answer, result));
            (after != db <==> holder.None? && AnsweredCall(db.calls[c].status)) &&
            (after != db ==>
              after.calls[c].status == StatusOf(answer) && after.calls[c].result == Some(result) &&
              after.outbox == db.outbox + [ToolEnded(c)])
  {
    assert OwnerFits(db.calls[c], db.issued);
    var after := ApplyCall(db, FinalizeCall(c, holder, answer, result));
    assert holder.None? && AnsweredCall(db.calls[c].status) ==> |after.outbox| > |db.outbox|;
  }

  /** The number of steps of a run that take call `c` into a terminal status. */
  function EndTransitions(db: Db, steps: seq<Step>, c: nat): nat {
    if steps == [] then 0
    else
      var before := Run(db, steps[..|steps| - 1]);
      EndTransitions(db, steps[..|steps| - 1], c) +
      if !EndedCallAt(before, c) && EndedCallAt(Apply(before, steps[|steps| - 1]), c) then 1 else 0
  }

  lemma {:induction false} EndsAtMostOnce(steps: seq<Step>, c: nat)
    requires AllNameHolder(steps)
    ensures EndTransitions(Initial(), steps, c) == if EndedCallAt(Run(Initial(), steps), c) then 1 else 0
  {
    if steps != [] {
      var n := |steps| - 1;
      var before := Run(Initial(), steps[..n]);
      EndsAtMostOnce(steps[..n], c);
      RunKeepsOwners(Initial(), steps[..n]);
      if EndedCallAt(before, c) {
        StepKeepsEndedCall(before, steps[n], c);
      }
    }
  }

  predicate Lost(db: Db, c: nat, token: Token) {
    c < |db.calls| && token in db.issued && db.calls[c].owner != Some(token)
  }

  lemma StepKeepsLost(db: Db, step: Step, c: nat, token: Token)
    requires Lost(db, c, token)
    ensures Lost(Apply(db, step), c, token)
  {
  }

  /** A token that is not the owner of a row never becomes its owner again. */
  lemma {:induction false} LostForGood(db: Db, steps: seq<Step>, c: nat, token: Token)
    requires Lost(db, c, token)
    ensures Lost(Run(db, steps), c, token)
  {
    if steps != [] {
      var n := |steps| - 1;
      LostForGood(db, steps[..n], c, token);
      StepKeepsLost(Run(db, steps[..n]), steps[n], c, token);
    }
  }

  ghost predicate Powerless(db: Db, c: nat, token: Token) {
    (forall now :: ApplyCall(db, RenewCall(c, now, token)) == db) &&
    ApplyCall(db, ReleaseCall(c, token)) == db &&
    (forall answer, result :: ApplyCall(db, FinalizeCall(c, Some(token), answer, result)) == db) &&
    (forall result :: ApplyCall(db, CancelClaimed(c, token, result)) == db)
  }

  lemma LostIsPowerless(db: Db, c: nat, token: Token)
    requires Lost(db, c, token)
    ensures Powerless(db, c, token)
  {
  }

  /** Once a second worker has taken over a call, the first one can neither renew, release, finalize
      nor cancel it, however long it keeps trying. */
  lemma TakenOverWorkerIsFenced(db: Db, c: nat, token: Token, now: int, rival: Token, more: seq<Step>)
    requires OwnersFit(db) && c < |db.calls| && db.calls[c].owner == Some(token)
    requires ApplyCall(db, ClaimCall(c, now, rival)) != db
    ensures Powerless(Run(ApplyCall(db, ClaimCall(c, now, rival)), more), c, token)
  {
    assert OwnerFits(db.calls[c], db.issued);
    var after := ApplyCall(db, ClaimCall(c, now, rival));
    assert rival !in db.issued && after.calls[c].owner == Some(rival);
    LostForGood(after, more, c, token);
    LostIsPowerless(Run(after, more), c, token);
  }

  /** The current holder can finalize exactly once: its own second attempt is refused. */
  lemma HolderFinalizesOnce(db: Db, c: nat, token: Token, answer: Answer, result: string, more: seq<Step>)
    requires OwnersFit(db) && c < |db.calls| && HeldBy(db.calls[c], token)
    ensures var after := ApplyCall(db, FinalizeCall(c, Some(token), answer, result));
            (match answer
             case AnswerCompleted => after.calls[c].status.CallCompleted?
             case AnswerFailed => after.calls[c].status.CallFailed?
             case AnswerDenied => after.calls[c].status.CallDenied?) &&
            after.calls[c].result == Some(result) && after.calls[c].owner.None? &&
            ToolEnded(c) in after.outbox && Powerless(Run(after, more), c, token)
  {
    var after := ApplyCall(db, FinalizeCall(c, Some(token), answer, result));
    assert OwnerFits(db.calls[c], db.issued);
    assert after.outbox[|db.outbox|] == ToolEnded(c);
    LostForGood(after, more, c, token);
    LostIsPowerless(Run(after, more), c, token);
  }
}
