/** The straight way of one analysis through all workers, and what each worker's transaction stores on it. */
module Lifecycle {
  import opened Wrappers
  import opened Platform
  import opened Agreement

  /** The row pair of analysis `a`. */
  predicate StandsAt(db: Db, a: nat, analysis: AnalysisStatus, session: Session) {
    a < |db.analyses| && a < |db.sessions| && db.analyses[a] == analysis && db.sessions[a] == session
  }

  /** Nothing of other analyses, and no tool call, differs. */
  predicate OnlyTouches(db: Db, after: Db, a: nat) {
    |db.analyses| <= |after.analyses| && |db.sessions| <= |after.sessions| && after.calls == db.calls &&
    (forall b :: 0 <= b < |db.analyses| && b != a ==> after.analyses[b] == db.analyses[b]) &&
    (forall g :: 0 <= g < |db.sessions| && g != a ==> after.sessions[g] == db.sessions[g])
  }

  /** Creation: a queued analysis with a waiting session, requested at once unless it belongs to a batch. */
  lemma Creates(db: Db, direct: bool)
    requires Linked(db)
    ensures var a, after := |db.analyses|, Apply(db, Life(CreateAnalysis(direct)));
            StandsAt(after, a, Queued, Session(a, Live(Waiting), None, 0)) && OnlyTouches(db, after, a) &&
            |after.analyses| == a + 1 && after.turns == db.turns &&
            (a in after.batched <==> !direct || a in db.batched) &&
            after.outbox == if direct then db.outbox + [AnalysisRequested(a)] else db.outbox
  {
  }

  /** The analysis worker takes up a queued analysis, once. */
  lemma TakesUp(db: Db, a: nat)
    requires Linked(db) && a < |db.analyses|
    ensures var after := Apply(db, Life(HandleAnalysisRequested(a)));
            if db.analyses[a] == Queued
            then StandsAt(after, a, Snapshotting, db.sessions[a]) && OnlyTouches(db, after, a) &&
                 after.outbox == db.outbox + [SnapshotRequested(a)]
            else after == db
  {
  }

  /** A snapshot goes to a live session, which then waits for its first turn, and a live analysis runs. */
  lemma GetsSnapshot(db: Db, a: nat, snapshot: nat)
    requires RowsAgree(db) && a < |db.analyses|
    ensures var after := Apply(db, Life(AssociateSnapshot(a, a, snapshot)));
            if db.sessions[a].status.Live?
            then StandsAt(after, a, Running, Session(a, Live(Waiting), Some(snapshot), db.sessions[a].turnCount)) &&
                 OnlyTouches(db, after, a) && after.outbox == db.outbox + [SnapshotReady(a)]
            else after == db
  {
  }

  /** A snapshot failure fails both rows of a live analysis. */
  lemma LosesSnapshot(db: Db, a: nat)
    requires RowsAgree(db) && a < |db.analyses|
    ensures var after := Apply(db, Life(SnapshotFail(a, a)));
            if db.sessions[a].status.Live?
            then StandsAt(after, a, Failed, db.sessions[a].(status := SessionFailed)) && OnlyTouches(db, after, a) &&
                 after.outbox == db.outbox + [SnapshotFailed(a)]
            else after == db
  {
  }

  /** A phase is stored in a live session and nowhere else. */
  lemma ChangesPhase(db: Db, g: nat, phase: Phase)
    requires g < |db.sessions|
    ensures var after := Apply(db, Turning(SetPhase(g, phase)));
            if db.sessions[g].status.Live?
            then after == db.(sessions := db.sessions[g := db.sessions[g].(status := Live(phase))]) else after == db
  {
  }

  /** Turns belong to sessions that exist. */
  predicate TurnsHaveSessions(db: Db) {
    forall t :: 0 <= t < |db.turns| ==> db.turns[t].agent < |db.sessions|
  }

  lemma TurnKeepsTurns(db: Db, s: TurnStep)
    requires TurnsHaveSessions(db)
    ensures TurnsHaveSessions(ApplyTurn(db, s))
  {
    TurnFrame(db, s);
  }

  lemma {:induction false} RunKeepsTurnsHaveSessions(steps: seq<Step>)
    ensures TurnsHaveSessions(Run(Initial(), steps))
  {
    if steps != [] {
      var n := |steps| - 1;
      var db := Run(Initial(), steps[..n]);
      RunKeepsTurnsHaveSessions(steps[..n]);
      match steps[n]
      case Life(s) => LifeFrame(db, s);
      case Turning(s) => TurnKeepsTurns(db, s);
      case Calling(s) => CallFrame(db, s);
    }
  }

  /** A turn with a final answer ends turn, session and analysis together. */
  lemma AnswersAndEnds(db: Db, a: nat, t: nat)
    requires RowsAgree(db) && a < |db.analyses| && t < |db.turns|
    ensures var after := Apply(db, Turning(CompleteWithAnswer(t, a, a)));
            var session := db.sessions[a];
            if session.status.Live?
            then StandsAt(after, a, Completed, Session(a, SessionCompleted, session.snapshot, session.turnCount + 1)) &&
                 OnlyTouches(db, after, a) && after.outbox == db.outbox + [AnalysisEnded(a, Completed)] &&
                 after.turns == db.turns[t := Turn(db.turns[t].agent, TurnCompleted)]
            else after == db
  {
  }

  function Started(db: Db, snapshot: nat): Db {
    var a := |db.analyses|;
    Apply(Apply(Apply(db, Life(CreateAnalysis(true))), Life(HandleAnalysisRequested(a))),
          Life(AssociateSnapshot(a, a, snapshot)))
  }

  lemma Starts(db: Db, snapshot: nat)
    requires RowsAgree(db)
    ensures var a, after := |db.analyses|, Started(db, snapshot);
            RowsAgree(after) && StandsAt(after, a, Running, Session(a, Live(Waiting), Some(snapshot), 0)) &&
            OnlyTouches(db, after, a) && after.turns == db.turns &&
            after.outbox == db.outbox + [AnalysisRequested(a), SnapshotRequested(a), SnapshotReady(a)]
  {
    var a := |db.analyses|;
    var created := Apply(db, Life(CreateAnalysis(true)));
    var taken := Apply(created, Life(HandleAnalysisRequested(a)));
    Creates(db, true);
    TakesUp(created, a);
    StepKeepsAgreement(db, Life(CreateAnalysis(true)));
    StepKeepsAgreement(created, Life(HandleAnalysisRequested(a)));
    GetsSnapshot(taken, a, snapshot);
    StepKeepsAgreement(taken, Life(AssociateSnapshot(a, a, snapshot)));
    LifeFrame(created, HandleAnalysisRequested(a));
    LifeFrame(taken, AssociateSnapshot(a, a, snapshot));
  }

  /** From whatever state, an analysis that is created directly can be completed in one turn, with exactly
      its four events and no change to any other. */
  lemma DirectAnalysisCompletes(db: Db, snapshot: nat)
    requires RowsAgree(db)
    ensures var a := |db.analyses|;
            var turn := Apply(Started(db, snapshot), Turning(StartTurn(a)));
            var after := Apply(turn, Turning(CompleteWithAnswer(|db.turns|, a, a)));
            StandsAt(after, a, Completed, Session(a, SessionCompleted, Some(snapshot), 1)) &&
            OnlyTouches(db, after, a) && after.turns == db.turns + [Turn(a, TurnCompleted)] &&
            after.outbox == db.outbox + [AnalysisRequested(a), SnapshotRequested(a), SnapshotReady(a),
                                         AnalysisEnded(a, Completed)]
  {
    var a, started := |db.analyses|, Started(db, snapshot);
    Starts(db, snapshot);
    var turn := Apply(started, Turning(StartTurn(a)));
    assert turn == started.(turns := started.turns + [Turn(a, TurnOpen)]);
    AnswersAndEnds(turn, a, |db.turns|);
  }
}
