/** How an analysis ends: its terminal event is unique and truthful, every intermediate status has
    the event that drives it on, and nothing advances after the end. */
module Endings {
  import opened Wrappers
  import opened Platform
  import opened Agreement

  predicate NoEndedEvent(db: Db, a: nat) {
    forall i :: 0 <= i < |db.outbox| && db.outbox[i].AnalysisEnded? ==> db.outbox[i].analysis != a
  }

  /** Every terminal event tells the analysis's status, and no two are about the same analysis. */
  predicate EventsTruthful(db: Db) {
    (forall i :: 0 <= i < |db.outbox| && db.outbox[i].AnalysisEnded? ==>
      var e := db.outbox[i];
      e.analysis < |db.analyses| && db.analyses[e.analysis] == e.status && TerminalAnalysis(e.status)) &&
    (forall i, j :: 0 <= i < j < |db.outbox| && db.outbox[i].AnalysisEnded? && db.outbox[j].AnalysisEnded? ==>
      db.outbox[i].analysis != db.outbox[j].analysis)
  }

  /** A failed analysis whose event is not written. */
  predicate Untold(db: Db, a: nat) {
    a < |db.analyses| && db.analyses[a].Failed? && NoEndedEvent(db, a)
  }

  predicate OwedFailures(db: Db) {
    (forall a :: a in db.owed ==> Untold(db, a) && a !in db.lost) && (forall a :: a in db.lost ==> Untold(db, a))
  }

  predicate SnapshotFailures(db: Db) {
    forall i :: 0 <= i < |db.outbox| && db.outbox[i].SnapshotFailed? ==>
      var a := db.outbox[i].analysis;
      Untold(db, a) && a !in db.owed && a !in db.lost
  }

  predicate FailuresExplained(db: Db) {
    forall a :: 0 <= a < |db.analyses| && db.analyses[a].Failed? ==>
      AnalysisEnded(a, Failed) in db.outbox || a in db.owed || a in db.lost || SnapshotFailed(a) in db.outbox
  }

  /** A failed analysis has exactly one of: its event, a handler that still owes it, a handler that died
      owing it, a SnapshotFailed. */
  predicate FailuresAccounted(db: Db) {
    OwedFailures(db) && SnapshotFailures(db) && FailuresExplained(db)
  }

  /** The outbox holds the event that each stored status is waiting for, or the terminal one; a queued
      analysis of a batch waits for its dispatch. */
  predicate Driven(db: Db, a: nat)
    requires a < |db.analyses|
  {
    match db.analyses[a]
    case Queued => a in db.batched || AnalysisRequested(a) in db.outbox
    case Snapshotting => SnapshotRequested(a) in db.outbox
    case Running => SnapshotReady(a) in db.outbox
    case Cancelling => CancelRequested(a) in db.outbox
    case Completed => AnalysisEnded(a, Completed) in db.outbox
    case Failed => true
    case Cancelled => AnalysisEnded(a, Cancelled) in db.outbox
  }

  predicate AllDriven(db: Db) {
    forall a :: 0 <= a < |db.analyses| ==> Driven(db, a)
  }

  predicate Appended(db: Db, after: Db, e: Event) {
    after.outbox == db.outbox + [e]
  }

  /** What any one transaction may do to statuses, terminal events and owed failures: a terminal or
      SnapshotFailed event comes alone, and only for an analysis that ends now or whose failure is owed. */
  predicate EndingMove(db: Db, after: Db) {
    StatusMove(db, after) && EventMove(db, after) && OwedMove(db, after)
  }

  predicate StatusMove(db: Db, after: Db) {
    |db.analyses| <= |after.analyses| && db.outbox <= after.outbox &&
    (forall a :: 0 <= a < |db.analyses| ==> Forward(db.analyses[a], after.analyses[a])) &&
    (forall a :: |db.analyses| <= a < |after.analyses| ==> after.analyses[a].Queued?)
  }

  predicate EventMove(db: Db, after: Db) {
    |db.analyses| <= |after.analyses| &&
    (forall i :: |db.outbox| <= i < |after.outbox| && after.outbox[i].AnalysisEnded? ==>
      var e := after.outbox[i];
      Appended(db, after, e) && e.analysis < |db.analyses| && e.analysis !in after.owed && e.analysis !in after.lost &&
      (e.analysis in db.owed || (!TerminalAnalysis(db.analyses[e.analysis]) && TerminalAnalysis(e.status))) &&
      (e.analysis in db.owed ==> e.status.Failed?) && after.analyses[e.analysis] == e.status) &&
    (forall i :: |db.outbox| <= i < |after.outbox| && after.outbox[i].SnapshotFailed? ==>
      var a := after.outbox[i].analysis;
      Appended(db, after, SnapshotFailed(a)) && AnalysisIsLive(db, a) && after.analyses[a].Failed? &&
      after.owed == db.owed && after.lost == db.lost)
  }

  predicate OwedMove(db: Db, after: Db) {
    |db.analyses| <= |after.analyses| &&
    (forall a :: a in after.owed && a !in db.owed ==>
      AnalysisIsLive(db, a) && after.analyses[a].Failed? && after.outbox == db.outbox) &&
    (forall a :: a in db.owed && a !in after.owed ==>
      a in after.lost || Appended(db, after, AnalysisEnded(a, Failed))) &&
    db.lost <= after.lost && after.owed !! (after.lost - db.lost) &&
    (forall a :: a in after.lost && a !in db.lost ==> a in db.owed && after.outbox == db.outbox) &&
    (forall a :: 0 <= a < |db.analyses| && !db.analyses[a].Failed? && after.analyses[a].Failed? ==>
      a in after.owed || Appended(db, after, SnapshotFailed(a)))
  }

  lemma LifeIsStatusMove(db: Db, step: LifeStep)
    ensures StatusMove(db, ApplyLife(db, step))
  {
    LifeFrame(db, step);
  }

  lemma LifeIsEventMove(db: Db, step: LifeStep)
    requires OwedFailures(db)
    ensures EventMove(db, ApplyLife(db, step))
  {
  }

  lemma LifeIsOwedMove(db: Db, step: LifeStep)
    ensures OwedMove(db, ApplyLife(db, step))
  {
  }

  lemma TurnIsEndingMove(db: Db, step: TurnStep)
    requires OwedFailures(db)
    ensures EndingMove(db, ApplyTurn(db, step))
  {
    TurnFrame(db, step);
  }

  lemma StepIsEndingMove(db: Db, step: Step)
    requires OwedFailures(db)
    ensures EndingMove(db, Apply(db, step))
  {
    match step
    case Life(s) =>
      LifeIsStatusMove(db, s);
      LifeIsEventMove(db, s);
      LifeIsOwedMove(db, s);
    case Turning(s) => TurnIsEndingMove(db, s);
    case Calling(s) => CallFrame(db, s);
  }

  lemma MoveKeepsEventsTruthful(db: Db, after: Db)
    requires EventsTruthful(db) && OwedFailures(db) && EndingMove(db, after)
    ensures EventsTruthful(after)
  {
  }

  lemma MoveKeepsOwed(db: Db, after: Db)
    requires EventsTruthful(db) && OwedFailures(db) && EndingMove(db, after)
    ensures OwedFailures(after)
  {
  }

  lemma MoveKeepsSnapshotFailures(db: Db, after: Db)
    requires EventsTruthful(db) && OwedFailures(db) && SnapshotFailures(db) && EndingMove(db, after)
    ensures SnapshotFailures(after)
  {
  }

  lemma MoveKeepsFailuresExplained(db: Db, after: Db)
    requires FailuresExplained(db) && EndingMove(db, after)
    ensures FailuresExplained(after)
  {
  }

  lemma LifeKeepsDriven(db: Db, step: LifeStep)
    requires AllDriven(db)
    ensures AllDriven(ApplyLife(db, step))
  {
    var after := ApplyLife(db, step);
    LifeFrame(db, step);
    if |after.outbox| > |db.outbox| {
      assert after.outbox[|db.outbox|] in after.outbox;
    }
    forall a | 0 <= a < |after.analyses|
      ensures Driven(after, a)
    {
      assert a < |db.analyses| ==> Driven(db, a);
    }
  }

  lemma StepKeepsDriven(db: Db, step: Step)
    requires AllDriven(db)
    ensures AllDriven(Apply(db, step))
  {
    match step
    case Life(s) => LifeKeepsDriven(db, s);
    case Turning(s) =>
      TurnFrame(db, s);
      var after := ApplyTurn(db, s);
      if |after.outbox| > |db.outbox| {
        assert after.outbox[|db.outbox|] in after.outbox;
      }
      forall a | 0 <= a < |db.analyses| ensures Driven(after, a) { assert Driven(db, a); }
    case Calling(s) =>
      CallFrame(db, s);
      forall a | 0 <= a < |db.analyses| ensures Driven(ApplyCall(db, s), a) { assert Driven(db, a); }
  }

  predicate EndingsInv(db: Db) {
    EventsTruthful(db) && FailuresAccounted(db) && AllDriven(db)
  }

  lemma StepKeepsEndings(db: Db, step: Step)
    requires EndingsInv(db)
    ensures EndingsInv(Apply(db, step))
  {
    var after := Apply(db, step);
    StepIsEndingMove(db, step);
    MoveKeepsEventsTruthful(db, after);
    MoveKeepsOwed(db, after);
    MoveKeepsSnapshotFailures(db, after);
    MoveKeepsFailuresExplained(db, after);
    StepKeepsDriven(db, step);
  }

  /** After every run: terminal events are unique and match the final status, failures are accounted
      for, and no status is left without the event that moves it on. */
  lemma {:induction false} EndingsExact(steps: seq<Step>)
    ensures EndingsInv(Run(Initial(), steps))
  {
    if steps != [] {
      var n := |steps| - 1;
      EndingsExact(steps[..n]);
      StepKeepsEndings(Run(Initial(), steps[..n]), steps[n]);
    }
  }

  /** The event once written stays true: whatever runs afterwards, the status it names is final. */
  lemma {:induction false} EndedEventIsFinal(steps: seq<Step>, more: seq<Step>, a: nat, status: AnalysisStatus)
    ensures AnalysisEnded(a, status) in Run(Initial(), steps).outbox ==>
              a < |Run(Run(Initial(), steps), more).analyses| && Run(Run(Initial(), steps), more).analyses[a] == status
  {
    EndingsExact(steps);
    if AnalysisEnded(a, status) in Run(Initial(), steps).outbox {
      StatusesMoveForward(Run(Initial(), steps), more, a);
    }
  }

  lemma LifeKeepsLinked(db: Db, step: LifeStep)
    requires Linked(db)
    ensures Linked(ApplyLife(db, step))
  {
  }

  lemma TurnKeepsLinked(db: Db, step: TurnStep)
    requires Linked(db)
    ensures Linked(ApplyTurn(db, step))
  {
  }

  lemma StepKeepsLinked(db: Db, step: Step)
    requires Linked(db)
    ensures Linked(Apply(db, step))
  {
    match step
    case Life(s) => LifeKeepsLinked(db, s);
    case Turning(s) => TurnKeepsLinked(db, s);
    case Calling(s) => CallFrame(db, s);
  }

  /** Nothing of analysis `a` advanced from `before` to `after`. */
  predicate Frozen(before: Db, after: Db, a: nat) {
    a < |before.sessions| <= |after.sessions| && |before.calls| <= |after.calls| &&
    after.sessions[a].turnCount == before.sessions[a].turnCount &&
    forall c :: |before.calls| <= c < |after.calls| ==> after.calls[c].agent != a
  }

  lemma {:induction false} InsertedCallsBelong(calls: seq<Call>, g: nat, t: nat, requests: seq<Request>)
    ensures forall c :: |calls| <= c < |InsertCalls(calls, g, t, requests)| ==>
              var row := InsertCalls(calls, g, t, requests)[c];
              row.agent == g && row.turn == t && row.owner.None? && row.expires.None? &&
              ((row.status.CallQueued? && row.result.None?) || (row.status.CallCompleted? && row.result.Some?))
  {
    if requests != [] {
      InsertedCallsBelong(calls, g, t, requests[..|requests| - 1]);
    }
  }

  lemma StepFreezes(db: Db, step: Step, a: nat)
    requires Linked(db) && a < |db.analyses| && !LiveAnalysis(db.analyses[a])
    ensures Frozen(db, Apply(db, step), a)
  {
    match step
    case Life(s) => LifeFrame(db, s);
    case Turning(s) =>
      TurnFrame(db, s);
      if s.CompleteWithTools? {
        InsertedCallsBelong(db.calls, s.g, s.t, s.requests);
      }
    case Calling(s) => CallFrame(db, s);
  }

  /** Once an analysis is cancelling or terminal, no tool-call row of its agent is created and its
      turn count does not move, whatever transactions follow. */
  lemma {:induction false} NothingAdvancesAfterEnd(db: Db, steps: seq<Step>, a: nat)
    requires Linked(db) && a < |db.analyses| && !LiveAnalysis(db.analyses[a])
    ensures Linked(Run(db, steps)) && Frozen(db, Run(db, steps), a)
  {
    if steps != [] {
      var n := |steps| - 1;
      NothingAdvancesAfterEnd(db, steps[..n], a);
      StatusesMoveForward(db, steps[..n], a);
      StepKeepsLinked(Run(db, steps[..n]), steps[n]);
      StepFreezes(Run(db, steps[..n]), steps[n], a);
    }
  }
}
