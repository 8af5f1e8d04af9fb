/** Cross-table agreement of analyses and sessions, and the one-way order of analysis statuses. */
module Agreement {
  import opened Wrappers
  import opened Platform

  predicate Agrees(a: AnalysisStatus, s: SessionStatus) {
    (LiveAnalysis(a) <==> s.Live?) &&
    (a.Completed? <==> s.SessionCompleted?) &&
    (a.Failed? <==> s.SessionFailed?) &&
    ((a.Cancelling? || a.Cancelled?) <==> s.SessionCancelled?)
  }

  /** Every analysis has one session, under the same number. */
  predicate Linked(db: Db) {
    |db.analyses| == |db.sessions| && forall i :: 0 <= i < |db.sessions| ==> db.sessions[i].analysis == i
  }

  predicate RowsAgree(db: Db) {
    Linked(db) && forall i :: 0 <= i < |db.sessions| ==> Agrees(db.analyses[i], db.sessions[i].status)
  }

  lemma LifeKeepsAgreement(db: Db, step: LifeStep)
    requires RowsAgree(db) && Addressed(Life(step))
    ensures RowsAgree(ApplyLife(db, step))
  {
  }

  lemma TurnKeepsAgreement(db: Db, step: TurnStep)
    requires RowsAgree(db)
    ensures RowsAgree(ApplyTurn(db, step))
  {
  }

  lemma StepKeepsAgreement(db: Db, step: Step)
    requires RowsAgree(db) && Addressed(step)
    ensures RowsAgree(Apply(db, step))
  {
    match step
    case Life(s) => LifeKeepsAgreement(db, s);
    case Turning(s) => TurnKeepsAgreement(db, s);
    case Calling(s) => CallFrame(db, s);
  }

  /** In every interleaving of the API and all workers, the analysis row and its session row agree. */
  lemma {:induction false} RunKeepsAgreement(steps: seq<Step>)
    requires AllAddressed(steps)
    ensures RowsAgree(Run(Initial(), steps))
  {
    if steps != [] {
      var n := |steps| - 1;
      RunKeepsAgreement(steps[..n]);
      StepKeepsAgreement(Run(Initial(), steps[..n]), steps[n]);
    }
  }

  /** `fail_analysis` updates its two rows under separate guards and never compares the ids, so it
      keeps agreement exactly when they belong together or neither row is live. */
  lemma FailAnalysisAgreesIff(db: Db, a: nat, g: nat)
    requires RowsAgree(db) && a < |db.analyses| && g < |db.sessions|
    ensures RowsAgree(ApplyLife(db, FailAnalysis(a, g))) <==>
            a == g || (!AnalysisIsLive(db, a) && !AnalysisIsLive(db, g))
  {
    var after := ApplyLife(db, FailAnalysis(a, g));
    if a != g && AnalysisIsLive(db, a) {
      assert !Agrees(after.analyses[a], after.sessions[a].status);
    } else if a != g && AnalysisIsLive(db, g) {
      assert !Agrees(after.analyses[g], after.sessions[g].status);
    }
  }

  /** Failing the first of two fresh analyses through the second one's agent breaks agreement. */
  lemma MisaddressedFailBreaksAgreement()
    ensures var two := ApplyLife(ApplyLife(Initial(), CreateAnalysis(true)), CreateAnalysis(true));
            RowsAgree(two) && !RowsAgree(ApplyLife(two, FailAnalysis(0, 1)))
  {
    var two := ApplyLife(ApplyLife(Initial(), CreateAnalysis(true)), CreateAnalysis(true));
    FailAnalysisAgreesIff(two, 0, 1);
  }

  function Rank(s: AnalysisStatus): nat {
    match s
    case Queued => 0
    case Snapshotting => 1
    case Running => 2
    case Cancelling => 3
    case Completed => 4
    case Failed => 4
    case Cancelled => 4
  }

  /** Status `to` may follow `from`: later in the order, and terminal statuses stay as they are. */
  predicate Forward(from: AnalysisStatus, to: AnalysisStatus) {
    Rank(from) <= Rank(to) && (TerminalAnalysis(from) ==> to == from) &&
    (from.Cancelling? ==> to.Cancelling? || to.Cancelled?)
  }

  lemma StepMovesForward(db: Db, step: Step, a: nat)
    requires a < |db.analyses|
    ensures a < |Apply(db, step).analyses| && Forward(db.analyses[a], Apply(db, step).analyses[a])
  {
    match step
    case Life(s) => LifeMovesForward(db, s, a);
    case Turning(s) => TurnFrame(db, s);
    case Calling(s) => CallFrame(db, s);
  }

  lemma LifeMovesForward(db: Db, step: LifeStep, a: nat)
    requires a < |db.analyses|
    ensures a < |ApplyLife(db, step).analyses| && Forward(db.analyses[a], ApplyLife(db, step).analyses[a])
  {
  }

  /** Statuses only move forward and terminal ones absorb; this needs no addressing assumption. */
  lemma {:induction false} StatusesMoveForward(db: Db, steps: seq<Step>, a: nat)
    requires a < |db.analyses|
    ensures a < |Run(db, steps).analyses| && Forward(db.analyses[a], Run(db, steps).analyses[a])
  {
    if steps != [] {
      var n := |steps| - 1;
      StatusesMoveForward(db, steps[..n], a);
      StepMovesForward(Run(db, steps[..n]), steps[n], a);
    }
  }

  /** A live session always belongs to an analysis that can still be failed, completed or cancelled:
      after any run each of the three endings reached through this pair takes effect on both rows. */
  lemma LivePairCanEnd(steps: seq<Step>, a: nat, t: nat)
    requires AllAddressed(steps)
    requires SessionIsLive(Run(Initial(), steps), a)
    ensures var db := Run(Initial(), steps);
            a < |db.analyses| &&
            ApplyTurn(db, CompleteWithAnswer(t, a, a)).analyses[a] == Completed &&
            ApplyLife(db, FailAnalysis(a, a)).analyses[a] == Failed &&
            ApplyLife(db, ApiCancel(a)).analyses[a] == Cancelling &&
            !SessionIsLive(ApplyTurn(db, CompleteWithAnswer(t, a, a)), a) &&
            !SessionIsLive(ApplyLife(db, FailAnalysis(a, a)), a) &&
            !SessionIsLive(ApplyLife(db, ApiCancel(a)), a)
  {
    RunKeepsAgreement(steps);
  }
}
