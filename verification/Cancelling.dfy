/** Cancelling an analysis: its open tool calls end with it, nothing of another analysis is touched, and
    no tool call of it is ever open again. */
module Cancelling {
  import opened Wrappers
  import opened Platform
  import opened Agreement
  import opened Endings
  import Causes

  predicate IsOpen(call: Call) {
    call.status.CallQueued? || call.status.CallRunning?
  }

  predicate NoneOpen(calls: seq<Call>, g: nat) {
    forall c :: 0 <= c < |calls| && calls[c].agent == g ==> !IsOpen(calls[c])
  }

  predicate IsCancelled(s: AnalysisStatus) {
    s.Cancelling? || s.Cancelled?
  }

  predicate Quiet(db: Db) {
    forall a :: 0 <= a < |db.analyses| && IsCancelled(db.analyses[a]) ==> NoneOpen(db.calls, a)
  }

  /** Cancel requests exist only of analyses that are no longer live. */
  predicate RequestsFit(db: Db) {
    forall i :: 0 <= i < |db.outbox| && db.outbox[i].CancelRequested? ==>
      db.outbox[i].analysis < |db.analyses| && !LiveAnalysis(db.analyses[db.outbox[i].analysis])
  }

  predicate CallsBelong(db: Db) {
    Linked(db) && forall c :: 0 <= c < |db.calls| ==> db.calls[c].agent < |db.analyses|
  }

  predicate CancelInv(db: Db) {
    CallsBelong(db) && Quiet(db) && RequestsFit(db)
  }

  lemma LifeKeepsQuiet(db: Db, s: LifeStep)
    requires CancelInv(db) && Causes.LifeCaused(db, s)
    ensures Quiet(ApplyLife(db, s))
  {
  }

  lemma CallKeepsQuiet(db: Db, s: CallStep)
    requires CancelInv(db)
    ensures Quiet(ApplyCall(db, s))
  {
  }

  lemma TurnKeepsQuiet(db: Db, s: TurnStep)
    requires CancelInv(db)
    ensures Quiet(ApplyTurn(db, s)) && CallsBelong(ApplyTurn(db, s))
  {
    TurnFrame(db, s);
    TurnKeepsLinked(db, s);
    if s.CompleteWithTools? {
      InsertedCallsBelong(db.calls, s.g, s.t, s.requests);
    }
  }

  lemma LifeKeepsBelong(db: Db, s: LifeStep)
    requires CallsBelong(db)
    ensures CallsBelong(ApplyLife(db, s))
  {
    LifeKeepsLinked(db, s);
  }

  lemma LifeKeepsRequests(db: Db, s: LifeStep)
    requires RequestsFit(db)
    ensures RequestsFit(ApplyLife(db, s))
  {
  }

  lemma StepKeepsRequests(db: Db, step: Step)
    requires RequestsFit(db)
    ensures RequestsFit(Apply(db, step))
  {
    match step
    case Life(s) => LifeKeepsRequests(db, s);
    case Turning(s) => TurnKeepsRequests(db, s);
    case Calling(s) => CallFrame(db, s);
  }

  lemma TurnKeepsRequests(db: Db, s: TurnStep)
    requires RequestsFit(db)
    ensures RequestsFit(ApplyTurn(db, s))
  {
    TurnFrame(db, s);
  }

  lemma DoKeepsCancelInv(db: Db, step: Step)
    requires CancelInv(db)
    ensures CancelInv(Causes.Do(db, step))
  {
    if Causes.Caused(db, step) {
      StepKeepsRequests(db, step);
      match step
      case Life(s) =>
        LifeKeepsQuiet(db, s);
        LifeKeepsBelong(db, s);
      case Turning(s) => TurnKeepsQuiet(db, s);
      case Calling(s) =>
        CallKeepsQuiet(db, s);
        CallFrame(db, s);
    }
  }

  /** In every run of caused transactions an analysis that is cancelling or cancelled has no queued or
      running tool call. */
  lemma {:induction false} CancelledHasNoOpenCall(steps: seq<Step>)
    ensures CancelInv(Causes.DoAll(Initial(), steps))
  {
    if steps != [] {
      CancelledHasNoOpenCall(steps[..|steps| - 1]);
      DoKeepsCancelInv(Causes.DoAll(Initial(), steps[..|steps| - 1]), steps[|steps| - 1]);
    }
  }

  /** The two cancels, on an analysis that has not ended: the API asks for the cancel, the worker does it. */
  predicate CancelsNow(db: Db, s: LifeStep, a: nat) {
    a < |db.analyses| && !TerminalAnalysis(db.analyses[a]) &&
    (s == ApiCancel(a) || s == HandleCancelRequested(a, Some(a)))
  }

  /** What a cancel does: the analysis is cancelling or cancelled, its open calls are cancelled and keep
      turn, id and result, its live session is cancelled, the event follows, and every other row stays. */
  lemma CancelEffect(db: Db, s: LifeStep, a: nat, b: nat)
    requires Linked(db) && CancelsNow(db, s, a) && b < |db.analyses|
    ensures var after := ApplyLife(db, s);
            after.analyses == db.analyses[a := if s.ApiCancel? then Cancelling else Cancelled] &&
            after.outbox == db.outbox + [if s.ApiCancel? then CancelRequested(a) else AnalysisEnded(a, Cancelled)] &&
            NoneOpen(after.calls, a) && after.turns == db.turns && |after.sessions| == |db.sessions| &&
            (b != a ==> after.sessions[b] == db.sessions[b]) && !after.sessions[a].status.Live? &&
            (!db.sessions[a].status.Live? ==> after.sessions[a] == db.sessions[a])
    ensures var after := ApplyLife(db, s);
            |after.calls| == |db.calls| && forall c :: 0 <= c < |db.calls| ==>
              if db.calls[c].agent == a && IsOpen(db.calls[c])
              then after.calls[c].status.CallCancelled? &&
                   after.calls[c].(status := db.calls[c].status, expires := db.calls[c].expires) == db.calls[c]
              else after.calls[c] == db.calls[c]
  {
  }
}
