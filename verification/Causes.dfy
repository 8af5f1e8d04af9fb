/** What sets the transactions off: every worker acts on an event that an earlier transaction wrote, so
    work on an analysis starts only after its AnalysisRequested. */
module Causes {
  import opened Wrappers
  import opened Platform
  import opened Endings

  /** The event that the worker handles is in the outbox.  The API acts on its own, execution workers
      and phase changes touch no analysis. */
  predicate Caused(db: Db, step: Step) {
    match step
    case Life(s) => LifeCaused(db, s)
    case Turning(s) => TurnCaused(db, s)
    case Calling(_) => true
  }

  predicate LifeCaused(db: Db, s: LifeStep) {
    match s
    case HandleAnalysisRequested(a) => AnalysisRequested(a) in db.outbox
    case HandleCancelRequested(a, agent) => CancelRequested(a) in db.outbox && agent == Some(a)
    case AssociateSnapshot(a, g, _) => SnapshotRequested(a) in db.outbox && g == a
    case SnapshotFail(a, g) => SnapshotRequested(a) in db.outbox && g == a
    case FailAnalysis(a, g) => SnapshotReady(a) in db.outbox && g == a
    case _ => true
  }

  predicate TurnCaused(db: Db, s: TurnStep) {
    match s
    case CompleteWithTools(_, a, _, _) => SnapshotReady(a) in db.outbox
    case CompleteWithAnswer(_, a, _) => SnapshotReady(a) in db.outbox
    case _ => true
  }

  /** A transaction without its cause does not happen. */
  function Do(db: Db, step: Step): Db {
    if Caused(db, step) then Apply(db, step) else db
  }

  function DoAll(db: Db, steps: seq<Step>): Db {
    if steps == [] then db else Do(DoAll(db, steps[..|steps| - 1]), steps[|steps| - 1])
  }

  predicate Begun(s: AnalysisStatus) {
    s.Snapshotting? || s.Running? || s.Completed? || s.Failed?
  }

  /** Requested, then handed to the snapshot worker, then ready, and no status gets ahead of that. */
  predicate InStep(db: Db, a: nat) {
    (AnalysisRequested(a) in db.outbox ==> a < |db.analyses|) &&
    (SnapshotRequested(a) in db.outbox ==>
      AnalysisRequested(a) in db.outbox && a < |db.analyses| && !db.analyses[a].Queued?) &&
    (SnapshotReady(a) in db.outbox ==> SnapshotRequested(a) in db.outbox) &&
    (a < |db.analyses| && Begun(db.analyses[a]) ==> SnapshotRequested(a) in db.outbox)
  }

  ghost predicate AllInStep(db: Db) {
    forall a: nat :: InStep(db, a)
  }

  lemma LifeKeepsStep(db: Db, s: LifeStep, a: nat)
    requires AllInStep(db) && LifeCaused(db, s)
    ensures InStep(ApplyLife(db, s), a)
  {
    assert InStep(db, a) && InStep(db, |db.analyses|);
    LifeFrame(db, s);
    if s.HandleAnalysisRequested? || s.AssociateSnapshot? || s.SnapshotFail? || s.FailAnalysis? {
      assert InStep(db, s.a);
    }
  }

  lemma TurnKeepsStep(db: Db, s: TurnStep, a: nat)
    requires AllInStep(db) && TurnCaused(db, s)
    ensures InStep(ApplyTurn(db, s), a)
  {
    assert InStep(db, a);
    TurnFrame(db, s);
    if s.CompleteWithAnswer? {
      assert InStep(db, s.a);
    }
    var after := ApplyTurn(db, s);
    assert forall e :: e in after.outbox && e !in db.outbox ==> ToolEvent(e) || e.AnalysisEnded?;
  }

  lemma DoKeepsStep(db: Db, step: Step)
    requires AllInStep(db)
    ensures AllInStep(Do(db, step))
  {
    if Caused(db, step) {
      forall a: nat
        ensures InStep(Apply(db, step), a)
      {
        match step
        case Life(s) => LifeKeepsStep(db, s, a);
        case Turning(s) => TurnKeepsStep(db, s, a);
        case Calling(s) =>
          CallFrame(db, s);
          assert InStep(db, a);
      }
    }
  }

  lemma DoKeepsEndings(db: Db, step: Step)
    requires EndingsInv(db)
    ensures EndingsInv(Do(db, step))
  {
    StepKeepsEndings(db, step);
  }

  /** In every run of caused transactions nothing happens to an analysis before it is requested: until
      then it is queued, cancelling or cancelled. */
  lemma {:induction false} NothingBeforeRequest(steps: seq<Step>, a: nat)
    ensures var db := DoAll(Initial(), steps);
            AllInStep(db) && EndingsInv(db) &&
            (a < |db.analyses| && AnalysisRequested(a) !in db.outbox ==>
              db.analyses[a].Queued? || db.analyses[a].Cancelling? || db.analyses[a].Cancelled?)
  {
    if steps != [] {
      var n := |steps| - 1;
      NothingBeforeRequest(steps[..n], a);
      DoKeepsStep(DoAll(Initial(), steps[..n]), steps[n]);
      DoKeepsEndings(DoAll(Initial(), steps[..n]), steps[n]);
    }
    assert InStep(DoAll(Initial(), steps), a);
  }
}
