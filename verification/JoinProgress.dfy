/** One handler left alone, and what follows: a turn whose calls are all answered can always go on. */
module JoinProgress {
  import opened Wrappers
  import opened Platform
  import opened Fencing
  import opened Join

  /** A new handler takes event `i` and runs through; the steps that do not apply to it do nothing. */
  function Steps(h: nat, i: nat, over: bool): seq<JoinStep> {
    [Spawn, Take(h, i), SeeSession(h), SeeTurn(h), SeeLimits(h, over), FailOver(h), SeeOutput(h), SeeOpen(h),
     ReadList(h), StartNext(h)]
  }

  function Looks(w: World, h: nat, i: nat, over: bool): World {
    Advance(Advance(Advance(Advance(Advance(w, Spawn), Take(h, i)), SeeSession(h)), SeeTurn(h)), SeeLimits(h, over))
  }

  function Acts(w: World, h: nat): World {
    Advance(Advance(Advance(Advance(Advance(w, FailOver(h)), SeeOutput(h)), SeeOpen(h)), ReadList(h)), StartNext(h))
  }

  lemma {:induction false} RunJoinAppends(w: World, first: seq<JoinStep>, second: seq<JoinStep>)
    ensures RunJoin(w, first + second) == RunJoin(RunJoin(w, first), second)
  {
    if second == [] {
      assert first + second == first;
    } else {
      var n := |second| - 1;
      RunJoinAppends(w, first, second[..n]);
      assert (first + second)[..|first + second| - 1] == first + second[..n];
    }
  }

  lemma OneStep(w: World, s: JoinStep)
    ensures RunJoin(w, [s]) == Advance(w, s)
  {
    assert [s][..0] == [] && RunJoin(w, []) == w;
  }

  lemma FiveSteps(w: World, a: JoinStep, b: JoinStep, c: JoinStep, d: JoinStep, e: JoinStep)
    ensures RunJoin(w, [a, b, c, d, e]) == Advance(Advance(Advance(Advance(Advance(w, a), b), c), d), e)
  {
    RunJoinAppends(w, [a], [b]);
    RunJoinAppends(w, [a, b], [c]);
    RunJoinAppends(w, [a, b, c], [d]);
    RunJoinAppends(w, [a, b, c, d], [e]);
    assert [a] + [b] == [a, b] && [a, b] + [c] == [a, b, c];
    assert [a, b, c] + [d] == [a, b, c, d] && [a, b, c, d] + [e] == [a, b, c, d, e];
    OneStep(w, a);
    OneStep(Advance(w, a), b);
    OneStep(Advance(Advance(w, a), b), c);
    OneStep(Advance(Advance(Advance(w, a), b), c), d);
    OneStep(Advance(Advance(Advance(Advance(w, a), b), c), d), e);
  }

  lemma LooksRun(w: World, h: nat, i: nat, over: bool)
    ensures RunJoin(w, [Spawn, Take(h, i), SeeSession(h), SeeTurn(h), SeeLimits(h, over)]) == Looks(w, h, i, over)
  {
    FiveSteps(w, Spawn, Take(h, i), SeeSession(h), SeeTurn(h), SeeLimits(h, over));
  }

  lemma ActsRun(w: World, h: nat)
    ensures RunJoin(w, [FailOver(h), SeeOutput(h), SeeOpen(h), ReadList(h), StartNext(h)]) == Acts(w, h)
  {
    FiveSteps(w, FailOver(h), SeeOutput(h), SeeOpen(h), ReadList(h), StartNext(h));
  }

  lemma StepsRun(w: World, h: nat, i: nat, over: bool)
    ensures RunJoin(w, Steps(h, i, over)) == Acts(Looks(w, h, i, over), h)
  {
    var first := [Spawn, Take(h, i), SeeSession(h), SeeTurn(h), SeeLimits(h, over)];
    var second := [FailOver(h), SeeOutput(h), SeeOpen(h), ReadList(h), StartNext(h)];
    LooksRun(w, h, i, over);
    var looked := RunJoin(w, first);
    ActsRun(looked, h);
    RunJoinAppends(w, first, second);
    assert Steps(h, i, over) == first + second;
  }

  /** The event needs no turn: its analysis has ended, or its call has one. */
  predicate NeedsNone(w: World, i: nat)
    requires IsEndedEvent(w.db, i)
  {
    !SessionIsLive(w.db, w.db.calls[CallAt(w.db, i)].agent) || CallAt(w.db, i) in w.triggered
  }

  /** The call is answered and no call of its turn is queued or running. */
  predicate IsReady(calls: seq<Call>, c: nat)
    requires c < |calls|
  {
    (calls[c].status.CallCompleted? || calls[c].status.CallFailed? || calls[c].status.CallDenied?) &&
    forall d :: 0 <= d < |calls| && calls[d].turn == calls[c].turn ==>
      !calls[d].status.CallQueued? && !calls[d].status.CallRunning?
  }

  /** World `w` with one more handler, at `pc`. */
  function With(w: World, pc: Pc): World {
    w.(handlers := w.handlers + [pc])
  }

  /** The new handler is through with event `i`. */
  function LetGo(w: World, i: nat): World {
    With(w, Free).(unread := w.unread - {i})
  }

  lemma LastMoves(w: World, pc: Pc, next: Pc)
    ensures (w.handlers + [pc])[|w.handlers| := next] == w.handlers + [next]
  {
  }

  /** The steps of a handler that is free do nothing. */
  lemma FreeHandlerRests(w: World, h: nat, s: JoinStep)
    requires h < |w.handlers| && w.handlers[h].Free? && !s.Tx? && !s.Spawn? && !s.Deliver? && !s.Take? && !s.Die?
    requires s.h == h
    ensures Advance(w, s) == w
  {
  }

  lemma LooksDecide(w: World, i: nat, over: bool)
    requires IsEndedEvent(w.db, i) && i in w.unread
    ensures Looks(w, |w.handlers|, i, over) ==
            if NeedsNone(w, i) then LetGo(w, i) else With(w, if over then OverLimit(i) else LimitsSeen(i))
  {
    var h := |w.handlers|;
    LastMoves(w, Free, Taken(i));
    LastMoves(w, Taken(i), SessionSeen(i));
    LastMoves(w, Taken(i), Free);
    LastMoves(w, SessionSeen(i), TurnSeen(i));
    LastMoves(w, SessionSeen(i), Free);
    LastMoves(w, TurnSeen(i), OverLimit(i));
    LastMoves(w, TurnSeen(i), LimitsSeen(i));
    assert Advance(Advance(w, Spawn), Take(h, i)) == With(w, Taken(i));
    var seen := Advance(With(w, Taken(i)), SeeSession(h));
    if !SessionIsLive(w.db, w.db.calls[CallAt(w.db, i)].agent) {
      assert seen == LetGo(w, i);
    } else {
      assert seen == With(w, SessionSeen(i));
    }
  }

  lemma RestingActs(w: World, h: nat)
    requires h < |w.handlers| && w.handlers[h].Free?
    ensures Acts(w, h) == w
  {
    FreeHandlerRests(w, h, FailOver(h));
    FreeHandlerRests(w, h, SeeOutput(h));
    FreeHandlerRests(w, h, SeeOpen(h));
    FreeHandlerRests(w, h, ReadList(h));
    FreeHandlerRests(w, h, StartNext(h));
  }

  lemma OverLimitActs(w: World, i: nat)
    requires IsEndedEvent(w.db, i)
    ensures var g := w.db.calls[CallAt(w.db, i)].agent;
            Acts(With(w, OverLimit(i)), |w.handlers|) == LetGo(w, i).(db := Apply(w.db, Life(FailAnalysis(g, g))))
  {
    var h := |w.handlers|;
    LastMoves(w, OverLimit(i), Free);
    var failed := Advance(With(w, OverLimit(i)), FailOver(h));
    FreeHandlerRests(failed, h, SeeOutput(h));
    FreeHandlerRests(failed, h, SeeOpen(h));
    FreeHandlerRests(failed, h, ReadList(h));
    FreeHandlerRests(failed, h, StartNext(h));
  }

  /** What a started continuation leaves. */
  function Continued(w: World, i: nat): World
    requires IsEndedEvent(w.db, i)
  {
    var c := CallAt(w.db, i);
    var t := w.db.calls[c].turn;
    LetGo(w, i).(lists := w.lists[t := Outputs(w.db.calls, t)], triggered := w.triggered + {c})
  }

  lemma ReadyActs(w: World, i: nat)
    requires IsEndedEvent(w.db, i) && IsReady(w.db.calls, CallAt(w.db, i))
    ensures Acts(With(w, LimitsSeen(i)), |w.handlers|) == Continued(w, i)
  {
    var h := |w.handlers|;
    LastMoves(w, LimitsSeen(i), OutputSeen(i));
    LastMoves(w, OutputSeen(i), NoneOpenSeen(i));
    LastMoves(w, NoneOpenSeen(i), ListRead(i));
    LastMoves(w, ListRead(i), Free);
    assert Advance(With(w, LimitsSeen(i)), FailOver(h)) == With(w, LimitsSeen(i));
    assert Advance(With(w, LimitsSeen(i)), SeeOutput(h)) == With(w, OutputSeen(i));
    assert Advance(With(w, OutputSeen(i)), SeeOpen(h)) == With(w, NoneOpenSeen(i));
    var t := w.db.calls[CallAt(w.db, i)].turn;
    var read := With(w, ListRead(i)).(lists := w.lists[t := Outputs(w.db.calls, t)]);
    assert Advance(With(w, NoneOpenSeen(i)), ReadList(h)) == read;
    assert Advance(read, StartNext(h)) == Continued(w, i);
  }

  lemma UnreadyActs(w: World, i: nat)
    requires IsEndedEvent(w.db, i) && !IsReady(w.db.calls, CallAt(w.db, i))
    ensures Acts(With(w, LimitsSeen(i)), |w.handlers|) == LetGo(w, i)
  {
    var h := |w.handlers|;
    LastMoves(w, LimitsSeen(i), OutputSeen(i));
    LastMoves(w, LimitsSeen(i), Free);
    LastMoves(w, OutputSeen(i), Free);
    assert Advance(With(w, LimitsSeen(i)), FailOver(h)) == With(w, LimitsSeen(i));
    if AnsweredCall(w.db.calls[CallAt(w.db, i)].status) {
      assert Advance(With(w, LimitsSeen(i)), SeeOutput(h)) == With(w, OutputSeen(i));
      assert Advance(With(w, OutputSeen(i)), SeeOpen(h)) == LetGo(w, i);
    } else {
      assert Advance(With(w, LimitsSeen(i)), SeeOutput(h)) == LetGo(w, i);
      FreeHandlerRests(LetGo(w, i), h, SeeOpen(h));
    }
    FreeHandlerRests(LetGo(w, i), h, ReadList(h));
    FreeHandlerRests(LetGo(w, i), h, StartNext(h));
  }

  /** Alone with an open event, a handler lets it go if no turn is needed, fails the analysis over a limit,
      lets it go too while the call or another of its turn is not answered, and otherwise reads the list of
      the turn and starts the continuation. */
  lemma LoneHandlerDecides(w: World, i: nat, over: bool)
    requires IsEndedEvent(w.db, i) && i in w.unread
    ensures var c := CallAt(w.db, i);
            var g := w.db.calls[c].agent;
            RunJoin(w, Steps(|w.handlers|, i, over)) ==
            if NeedsNone(w, i) then LetGo(w, i)
            else if over then LetGo(w, i).(db := Apply(w.db, Life(FailAnalysis(g, g))))
            else if IsReady(w.db.calls, c) then Continued(w, i)
            else LetGo(w, i)
  {
    StepsRun(w, |w.handlers|, i, over);
    LooksDecide(w, i, over);
    if NeedsNone(w, i) {
      RestingActs(LetGo(w, i), |w.handlers|);
    } else if over {
      OverLimitActs(w, i);
    } else if IsReady(w.db.calls, CallAt(w.db, i)) {
      ReadyActs(w, i);
    } else {
      UnreadyActs(w, i);
    }
  }

  /** A handler that dies loses nothing, and an event may come again at any time. */
  lemma DeathLosesNothing(w: World, h: nat, i: nat)
    requires h < |w.handlers|
    ensures Advance(w, Die(h)) == w.(handlers := w.handlers[h := Free])
    ensures IsEndedEvent(w.db, i) ==> Advance(w, Deliver(i)) == w.(unread := w.unread + {i})
  {
  }

  /** The step that a handler's place lets it take. */
  predicate IsDue(pc: Pc, s: JoinStep) {
    match pc
    case Free => false
    case Taken(_) => s.SeeSession?
    case SessionSeen(_) => s.SeeTurn?
    case TurnSeen(_) => s.SeeLimits?
    case LimitsSeen(_) => s.SeeOutput?
    case OverLimit(_) => s.FailOver?
    case OutputSeen(_) => s.SeeOpen?
    case NoneOpenSeen(_) => s.ReadList?
    case ListRead(_) => s.StartNext?
  }

  /** A handler skips no look: a step that is not due does nothing. */
  lemma OnlyDueStepsAct(w: World, s: JoinStep)
    requires !s.Tx? && !s.Spawn? && !s.Deliver? && !s.Take? && !s.Die?
    requires s.h < |w.handlers| && !IsDue(w.handlers[s.h], s)
    ensures Advance(w, s) == w
  {
  }

  // --- A turn can go on ---

  function OpenEvents(w: World): set<nat> {
    set i | i in w.unread && IsEndedEvent(w.db, i)
  }

  predicate NoTransactions(steps: seq<JoinStep>) {
    forall k :: 0 <= k < |steps| ==> !steps[k].Tx?
  }

  lemma OneEventFewer(w: World, i: nat)
    requires i in OpenEvents(w)
    ensures var after := RunJoin(w, Steps(|w.handlers|, i, false));
            after.db == w.db && OpenEvents(after) == OpenEvents(w) - {i}
  {
    LoneHandlerDecides(w, i, false);
  }

  /** Without new transactions all open events can be handled. */
  lemma {:induction false} EventsCanBeHandled(w: World) returns (more: seq<JoinStep>)
    ensures NoTransactions(more) && RunJoin(w, more).db == w.db && OpenEvents(RunJoin(w, more)) == {}
    decreases |OpenEvents(w)|
  {
    if OpenEvents(w) == {} {
      more := [];
    } else {
      var i :| i in OpenEvents(w);
      var one := Steps(|w.handlers|, i, false);
      OneEventFewer(w, i);
      var rest := EventsCanBeHandled(RunJoin(w, one));
      RunJoinAppends(w, one, rest);
      more := one + rest;
    }
  }

  /** Whenever all calls of a turn are answered and the analysis has not ended, handlers can finish, and
      then the full list of the turn was read and a continuation turn started. */
  lemma AnsweredTurnCanGoOn(steps: seq<JoinStep>, t: nat) returns (more: seq<JoinStep>)
    requires AllWellBehaved(steps) && CallsOf(RunJoin(Start(), steps).db.calls, t) != []
    requires var db := RunJoin(Start(), steps).db;
             forall c :: 0 <= c < |db.calls| && db.calls[c].turn == t ==>
               AnsweredCall(db.calls[c].status) && SessionIsLive(db, db.calls[c].agent)
    ensures var w := RunJoin(Start(), steps + more);
            w.db == RunJoin(Start(), steps).db && t in w.lists && Ids(w.lists[t]) == CallsOf(w.db.calls, t) &&
            exists c :: c in w.triggered && c < |w.db.calls| && w.db.calls[c].turn == t
  {
    more := EventsCanBeHandled(RunJoin(Start(), steps));
    RunJoinAppends(Start(), steps, more);
    var w := RunJoin(Start(), steps + more);
    assert forall i :: i in w.unread && IsEndedEvent(w.db, i) ==> i in OpenEvents(w);
    assert Finished(w, t);
    NoLostWakeup(steps + more, t);
  }
}
