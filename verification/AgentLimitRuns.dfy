/** Runs of one agent that exceed its limits, built from the events that the system writes. */
module AgentLimitRuns {
  import opened Wrappers
  import opened Platform
  import opened AgentTurns
  import Join

  /** `a` is reached by agent 0, with one event handled at a time if `serial`. */
  ghost predicate Reached(limits: Limits, serial: bool, a: Agent) {
    exists moves ::
      Drive(Fresh(), 0, limits, moves) == a && AllClaimed(0, limits, moves) &&
      (serial ==> Disciplined(0, limits, moves))
  }

  lemma Reach(limits: Limits, serial: bool, a: Agent, move: Move)
    requires Reached(limits, serial, a) && Claimed(a, move) && (serial ==> OneAtATime(a, move))
    ensures Reached(limits, serial, Act(a, 0, limits, move))
  {
    var moves :| Drive(Fresh(), 0, limits, moves) == a && AllClaimed(0, limits, moves) &&
      (serial ==> Disciplined(0, limits, moves));
    var more := moves + [move];
    assert more[..|more| - 1] == moves;
    assert Drive(Fresh(), 0, limits, more) == Act(a, 0, limits, move);
  }

  lemma ReachStep(limits: Limits, serial: bool, a: Agent, step: Step) returns (b: Agent)
    requires Reached(limits, serial, a) && !HandlerStep(a.db, step, 0)
    ensures Reached(limits, serial, b) && b == a.(db := Apply(a.db, step))
  {
    Reach(limits, serial, a, Elsewhere(step));
    b := a.(db := Apply(a.db, step));
  }

  /** A running analysis with its snapshot, `turnCount` turns and two idle handlers. */
  predicate Stands(a: Agent, turnCount: nat) {
    a.db.analyses == [Running] && a.db.sessions == [Session(0, Live(Waiting), Some(0), turnCount)] &&
    SnapshotReady(0) in a.db.outbox && a.pcs == [Resting, Resting]
  }

  lemma ReachCreated(limits: Limits, serial: bool) returns (a: Agent)
    ensures Reached(limits, serial, a) && a.keys == map[] && a.pcs == []
    ensures a.db == Initial().(analyses := [Queued], sessions := [Session(0, Live(Waiting), None, 0)],
                               outbox := [AnalysisRequested(0)])
  {
    assert Drive(Fresh(), 0, limits, []) == Fresh() && AllClaimed(0, limits, []) && Disciplined(0, limits, []);
    a := ReachStep(limits, serial, Fresh(), Life(CreateAnalysis(true)));
  }

  lemma ReachSnapshotting(limits: Limits, serial: bool) returns (a: Agent)
    ensures Reached(limits, serial, a) && a.keys == map[] && a.pcs == []
    ensures a.db == Initial().(analyses := [Snapshotting], sessions := [Session(0, Live(Waiting), None, 0)],
                               outbox := [AnalysisRequested(0), SnapshotRequested(0)])
  {
    a := ReachCreated(limits, serial);
    a := ReachStep(limits, serial, a, Life(HandleAnalysisRequested(0)));
  }

  lemma ReachRunning(limits: Limits, serial: bool) returns (a: Agent)
    ensures Reached(limits, serial, a) && a.keys == map[] && a.pcs == []
    ensures a.db == Initial().(analyses := [Running], sessions := [Session(0, Live(Waiting), Some(0), 0)],
                               outbox := [AnalysisRequested(0), SnapshotRequested(0), SnapshotReady(0)])
  {
    a := ReachSnapshotting(limits, serial);
    a := ReachStep(limits, serial, a, Life(AssociateSnapshot(0, 0, 0)));
  }

  lemma ReachReady(limits: Limits, serial: bool) returns (a: Agent)
    ensures Reached(limits, serial, a) && Stands(a, 0) && a.db.turns == [] && a.db.calls == [] && a.db.issued == {} &&
            a.keys == map[]
  {
    var r := ReachRunning(limits, serial);
    assert r.db.outbox[2] == SnapshotReady(0);
    Reach(limits, serial, r, Spawn);
    var one := r.(pcs := [Resting]);
    assert Act(r, 0, limits, Spawn) == one;
    Reach(limits, serial, one, Spawn);
    a := r.(pcs := [Resting, Resting]);
    assert Act(one, 0, limits, Spawn) == a;
  }

  /** The handler looks up its trigger and starts the turn. */
  lemma StartOne(limits: Limits, serial: bool, a: Agent, h: nat, trigger: Trigger) returns (b: Agent)
    requires Reached(limits, serial, a) && IsResting(a, h)
    requires serial ==> forall k :: 0 <= k < |a.pcs| ==> a.pcs[k].Resting?
    requires TriggerSeen(a.db, 0, trigger) && trigger !in a.keys && a.db.sessions[0].snapshot.Some?
    requires TurnCount(a.db, 0) < limits.maxTurns && !OverToolLimit(a.db, 0, limits, 1) && OutputsReady(a.db, trigger)
    ensures Reached(limits, serial, b)
    ensures b == Agent(a.db.(turns := a.db.turns + [Turn(0, TurnOpen)]), a.keys[trigger := |a.db.turns|],
                       a.pcs[h := Asking(|a.db.turns|, false)])
  {
    Reach(limits, serial, a, Look(h, trigger));
    var looked := Act(a, 0, limits, Look(h, trigger));
    assert looked == With(a, h, Looked(trigger));
    Reach(limits, serial, looked, Begin(h));
    b := Act(looked, 0, limits, Begin(h));
    assert looked.pcs[h := Asking(|a.db.turns|, false)] == a.pcs[h := Asking(|a.db.turns|, false)];
  }

  lemma CheckOne(limits: Limits, serial: bool, a: Agent, h: nat, n: nat) returns (b: Agent)
    requires Reached(limits, serial, a) && h < |a.pcs| && a.pcs[h].Asking? && SessionIsLive(a.db, 0)
    requires !OverToolLimit(a.db, 0, limits, n)
    ensures Reached(limits, serial, b) && b == With(a, h, Cleared(a.pcs[h].t, a.pcs[h].late, n))
  {
    Reach(limits, serial, a, Check(h, n));
    b := Act(a, 0, limits, Check(h, n));
  }

  /** What committing a turn with tool calls leaves, column by column. */
  predicate Committed(db: Db, after: Db, t: nat, requests: seq<Request>) {
    |db.sessions| > 0 && after.analyses == db.analyses && db.outbox <= after.outbox && after.issued == db.issued &&
    after.sessions == db.sessions[0 := db.sessions[0].(turnCount := db.sessions[0].turnCount + 1)] &&
    after.calls == InsertCalls(db.calls, 0, t, requests) &&
    after.turns == if t < |db.turns| then db.turns[t := db.turns[t].(status := TurnCompleted)] else db.turns
  }

  lemma CommittedDb(db: Db, t: nat, requests: seq<Request>)
    requires Continuable(db, 0, 0)
    ensures Committed(db, ApplyTurn(db, CompleteWithTools(t, 0, 0, requests)), t, requests)
  {
  }

  lemma CommitOne(limits: Limits, serial: bool, a: Agent, h: nat, requests: seq<Request>) returns (b: Agent)
    requires Reached(limits, serial, a) && h < |a.pcs| && a.pcs[h].Cleared? && |requests| == a.pcs[h].n &&
             Continuable(a.db, 0, 0)
    ensures Reached(limits, serial, b) && b.pcs == a.pcs[h := Resting] && b.keys == a.keys
    ensures Committed(a.db, b.db, a.pcs[h].t, requests)
  {
    CommittedDb(a.db, a.pcs[h].t, requests);
    Reach(limits, serial, a, CommitTools(h, requests));
    b := Agent(ApplyTurn(a.db, CompleteWithTools(a.pcs[h].t, 0, 0, requests)), a.keys, a.pcs[h := Resting]);
    assert Act(a, 0, limits, CommitTools(h, requests)) == b;
  }

  /** A request with an unknown call id adds its row. */
  lemma RowAdded(calls: seq<Call>, t: nat, requests: seq<Request>, request: Request)
    requires FindCall(InsertCalls(calls, 0, t, requests), 0, request.externalId).None?
    ensures InsertCalls(calls, 0, t, requests + [request]) ==
            InsertCalls(calls, 0, t, requests) + [NewCall(0, t, request)]
  {
    assert (requests + [request])[..|requests|] == requests;
  }

  lemma TwoInserted()
    ensures InsertCalls([], 0, 0, [Request("a", None), Request("b", None)]) ==
            [NewCall(0, 0, Request("a", None)), NewCall(0, 0, Request("b", None))]
  {
    var a, b := Request("a", None), Request("b", None);
    RowAdded([], 0, [], a);
    assert [] + [a] == [a];
    var one := [NewCall(0, 0, a)];
    assert InsertCalls([], 0, 0, [a]) == one;
    assert one[0].externalId == "a";
    RowAdded([], 0, [a], b);
    assert [a] + [b] == [a, b];
  }

  /** The first turn is open and its answer with two tool calls is cleared. */
  lemma ReachFirstCleared(limits: Limits, serial: bool) returns (a: Agent)
    requires limits.maxTurns >= 1 && (limits.maxToolCalls == 0 || limits.maxToolCalls >= 2)
    ensures Reached(limits, serial, a) && a.pcs == [Cleared(0, false, 2), Resting] &&
            a.keys == map[FromSnapshot(0) := 0]
    ensures a.db.turns == [Turn(0, TurnOpen)] && a.db.calls == [] && a.db.issued == {}
    ensures Stands(a.(pcs := [Resting, Resting]), 0)
  {
    var r := ReachReady(limits, serial);
    a := StartOne(limits, serial, r, 0, FromSnapshot(0));
    a := CheckOne(limits, serial, a, 0, 2);
  }

  /** The first turn asks for two tool calls. */
  lemma ReachFirstTurn(limits: Limits, serial: bool) returns (a: Agent)
    requires limits.maxTurns >= 1 && (limits.maxToolCalls == 0 || limits.maxToolCalls >= 2)
    ensures Reached(limits, serial, a) && Stands(a, 1) && a.db.turns == [Turn(0, TurnCompleted)] && a.db.issued == {}
    ensures a.db.calls == [NewCall(0, 0, Request("a", None)), NewCall(0, 0, Request("b", None))]
    ensures a.keys == map[FromSnapshot(0) := 0]
  {
    var c := ReachFirstCleared(limits, serial);
    TwoInserted();
    a := CommitOne(limits, serial, c, 0, [Request("a", None), Request("b", None)]);
  }

  /** Both tool calls of the first turn have ended, and nothing else was asked for. */
  predicate BothEnded(db: Db, turnCount: nat) {
    db.analyses == [Running] && db.sessions == [Session(0, Live(Waiting), Some(0), turnCount)] &&
    |db.calls| == 2 && ToolEnded(0) in db.outbox && ToolEnded(1) in db.outbox &&
    Answered(db.calls[0], "a") && Answered(db.calls[1], "b")
  }

  predicate Answered(call: Call, externalId: string) {
    call.agent == 0 && call.turn == 0 && call.status.CallCompleted? && call.externalId == externalId
  }

  lemma BothAreReady(db: Db, turnCount: nat, c: nat)
    requires BothEnded(db, turnCount) && c < 2
    ensures TriggerSeen(db, 0, FromCall(c)) && OutputsReady(db, FromCall(c)) && Continuable(db, 0, 0)
    ensures CountCalls(db.calls, 0) == 2 && TurnCount(db, 0) == turnCount
  {
    TwoCalls(db.calls);
  }

  lemma EndOne(limits: Limits, serial: bool, a: Agent, c: nat, token: Token) returns (b: Agent)
    requires Reached(limits, serial, a) && c < |a.db.calls| && a.db.calls[c].status.CallQueued? && token !in a.db.issued
    ensures Reached(limits, serial, b) && b.keys == a.keys && b.pcs == a.pcs
    ensures b.db.analyses == a.db.analyses && b.db.sessions == a.db.sessions && b.db.turns == a.db.turns
    ensures b.db.issued == a.db.issued + {token} && b.db.outbox == a.db.outbox + [ToolEnded(c)]
    ensures b.db.calls == a.db.calls[c := EndedCall(a.db.calls[c], CallCompleted, "")]
  {
    b := ReachStep(limits, serial, a, Calling(ClaimCall(c, 0, token)));
    assert HeldBy(b.db.calls[c], token);
    b := ReachStep(limits, serial, b, Calling(FinalizeCall(c, Some(token), AnswerCompleted, "")));
    assert b.db.calls[c] == EndedCall(a.db.calls[c], CallCompleted, "");
  }

  lemma ReachBothEnded(limits: Limits, serial: bool) returns (a: Agent)
    requires limits.maxTurns >= 1 && (limits.maxToolCalls == 0 || limits.maxToolCalls >= 2)
    ensures Reached(limits, serial, a) && BothEnded(a.db, 1) && a.db.turns == [Turn(0, TurnCompleted)]
    ensures a.keys == map[FromSnapshot(0) := 0] && a.pcs == [Resting, Resting]
  {
    var first := ReachFirstTurn(limits, serial);
    var one := EndOne(limits, serial, first, 0, 1);
    a := EndOne(limits, serial, one, 1, 2);
    assert a.db.outbox[|first.db.outbox|] == ToolEnded(0) && a.db.outbox[|one.db.outbox|] == ToolEnded(1);
  }

  lemma TwoCalls(calls: seq<Call>)
    requires |calls| == 2 && calls[0].agent == 0 && calls[1].agent == 0
    ensures CountCalls(calls, 0) == 2
  {
    assert calls[..1][..0] == [] && CountCalls(calls[..1][..0], 0) == 0;
    assert CountCalls(calls[..1], 0) == 1;
  }

  /** One more request adds one call. */
  lemma OneMore(calls: seq<Call>, t: nat, externalId: string)
    requires forall i :: 0 <= i < |calls| ==> calls[i].externalId != externalId
    ensures var rows := InsertCalls(calls, 0, t, [Request(externalId, None)]);
            CountCalls(rows, 0) == CountCalls(calls, 0) + 1 && |rows| == |calls| + 1 &&
            rows[|calls|].externalId == externalId &&
            forall i :: 0 <= i < |calls| ==> rows[i] == calls[i]
  {
    assert [Request(externalId, None)][..0] == [];
    assert InsertCalls(calls, 0, t, []) == calls;
    var rows := calls + [NewCall(0, t, Request(externalId, None))];
    assert InsertCalls(calls, 0, t, [Request(externalId, None)]) == rows;
    assert rows[..|calls|] == calls;
  }

  lemma ReachOneTurn(limits: Limits, serial: bool) returns (a: Agent)
    requires limits.maxTurns == 2 && (limits.maxToolCalls == 0 || limits.maxToolCalls == 3)
    ensures Reached(limits, serial, a) && a.pcs == [Asking(1, false), Resting] && BothEnded(a.db, 1)
    ensures a.keys == map[FromSnapshot(0) := 0, FromCall(0) := 1] &&
            a.db.turns == [Turn(0, TurnCompleted), Turn(0, TurnOpen)]
  {
    var start := ReachBothEnded(limits, serial);
    BothAreReady(start.db, 1, 0);
    a := StartOne(limits, serial, start, 0, FromCall(0));
  }

  /** Both tool events have started a turn, each on its own handler. */
  lemma ReachTwoTurns(limits: Limits) returns (a: Agent)
    requires limits == Limits(2, 3)
    ensures Reached(limits, false, a) && a.pcs == [Asking(1, false), Asking(2, false)] && BothEnded(a.db, 1)
  {
    var one := ReachOneTurn(limits, false);
    BothAreReady(one.db, 1, 1);
    a := StartOne(limits, false, one, 1, FromCall(1));
  }

  lemma ReachTwoCleared(limits: Limits) returns (a: Agent)
    requires limits == Limits(2, 3)
    ensures Reached(limits, false, a) && a.pcs == [Cleared(1, false, 1), Cleared(2, false, 1)] && BothEnded(a.db, 1)
  {
    var s := ReachTwoTurns(limits);
    BothAreReady(s.db, 1, 0);
    var one := CheckOne(limits, false, s, 0, 1);
    a := CheckOne(limits, false, one, 1, 1);
  }

  /** A commit of one more call after the two that ended. */
  lemma OneMoreCommitted(db: Db, after: Db, t: nat)
    requires BothEnded(db, 1) && Committed(db, after, t, [Request("c", None)])
    ensures Continuable(after, 0, 0) && CountCalls(after.calls, 0) == 3 && TurnCount(after, 0) == 2
    ensures TriggerSeen(after, 0, FromCall(0))
    ensures forall i :: 0 <= i < |after.calls| ==> after.calls[i].externalId != "d"
  {
    TwoCalls(db.calls);
    OneMore(db.calls, t, "c");
  }

  /** One of the two has committed: three calls, and the other is still cleared. */
  lemma ReachOneCommitted(limits: Limits) returns (a: Agent)
    requires limits == Limits(2, 3)
    ensures Reached(limits, false, a) && a.pcs == [Resting, Cleared(2, false, 1)] && Continuable(a.db, 0, 0)
    ensures CountCalls(a.db.calls, 0) == 3 && TurnCount(a.db, 0) == 2
    ensures forall i :: 0 <= i < |a.db.calls| ==> a.db.calls[i].externalId != "d"
  {
    var s := ReachTwoCleared(limits);
    a := CommitOne(limits, false, s, 0, [Request("c", None)]);
    OneMoreCommitted(s.db, a.db, 1);
  }

  /** Two tool events handled at the same time, by two workers: with max_tool_calls 3 the agent ends up
      with four tool calls, and with max_turns 2 with three turns. */
  lemma TwoHandlersExceedLimits() returns (a: Agent)
    ensures Reached(Limits(2, 3), false, a) && CountCalls(a.db.calls, 0) == 4 && TurnCount(a.db, 0) == 3
  {
    var s := ReachOneCommitted(Limits(2, 3));
    OneMore(s.db.calls, 2, "d");
    a := CommitOne(Limits(2, 3), false, s, 1, [Request("d", None)]);
  }

  /** The turn of the first tool event is open and nobody works on it. */
  lemma ReachInterrupted(limits: Limits) returns (a: Agent)
    requires limits == Limits(2, 0)
    ensures Reached(limits, true, a) && a.pcs == [Resting, Resting] && BothEnded(a.db, 1)
    ensures a.keys == map[FromSnapshot(0) := 0, FromCall(0) := 1] &&
            a.db.turns == [Turn(0, TurnCompleted), Turn(0, TurnOpen)]
  {
    var one := ReachOneTurn(limits, true);
    Reach(limits, true, one, GiveUp(0, false));
    a := With(one, 0, Resting);
    assert Act(one, 0, limits, GiveUp(0, false)) == a;
  }

  lemma ReachSecondCleared(limits: Limits) returns (a: Agent)
    requires limits == Limits(2, 0)
    ensures Reached(limits, true, a) && a.pcs == [Cleared(2, false, 1), Resting] && BothEnded(a.db, 1)
    ensures FromCall(0) in a.keys && a.keys[FromCall(0)] == 1 && |a.db.turns| == 3 && a.db.turns[1] == Turn(0, TurnOpen)
  {
    var start := ReachInterrupted(limits);
    BothAreReady(start.db, 1, 1);
    var one := StartOne(limits, true, start, 0, FromCall(1));
    a := CheckOne(limits, true, one, 0, 1);
  }

  /** The second tool event's turn has committed, and the count is at the limit. */
  lemma ReachAtLimit(limits: Limits) returns (a: Agent)
    requires limits == Limits(2, 0)
    ensures Reached(limits, true, a) && a.pcs == [Resting, Resting] && TurnCount(a.db, 0) == 2 &&
            Continuable(a.db, 0, 0)
    ensures Resumable(a, 0, 0, FromCall(0)) && a.keys[FromCall(0)] == 1
  {
    var s := ReachSecondCleared(limits);
    a := CommitOne(limits, true, s, 0, [Request("c", None)]);
    OneMoreCommitted(s.db, a.db, 2);
  }

  /** One event at a time: the turn of the first tool event is interrupted, that of the second commits
      and reaches max_turns 2, and the first event is delivered again. */
  lemma ResumedTurnExceedsLimit() returns (a: Agent)
    ensures Reached(Limits(2, 0), true, a) && TurnCount(a.db, 0) == 3
  {
    var limits := Limits(2, 0);
    var s := ReachAtLimit(limits);
    Reach(limits, true, s, Resume(0, FromCall(0)));
    var one := With(s, 0, Asking(1, true));
    assert Act(s, 0, limits, Resume(0, FromCall(0))) == one;
    var two := CheckOne(limits, true, one, 0, 1);
    a := CommitOne(limits, true, two, 0, [Request("d", None)]);
  }

  // --- A claim that lapsed ---

  ghost predicate Reachable(limits: Limits, a: Agent) {
    exists moves :: Drive(Fresh(), 0, limits, moves) == a
  }

  lemma GoOn(limits: Limits, a: Agent, move: Move)
    requires Reachable(limits, a)
    ensures Reachable(limits, Act(a, 0, limits, move))
  {
    var moves :| Drive(Fresh(), 0, limits, moves) == a;
    assert (moves + [move])[..|moves|] == moves;
    assert Drive(Fresh(), 0, limits, moves + [move]) == Act(a, 0, limits, move);
  }

  lemma ReachedIsReachable(limits: Limits, a: Agent)
    requires Reached(limits, false, a)
    ensures Reachable(limits, a)
  {
  }

  lemma ResumeOne(limits: Limits, a: Agent, h: nat, trigger: Trigger) returns (b: Agent)
    requires Reachable(limits, a) && Resumable(a, 0, h, trigger) && TurnCount(a.db, 0) < limits.maxTurns
    ensures Reachable(limits, b) && b == With(a, h, Asking(a.keys[trigger], false))
  {
    GoOn(limits, a, Resume(h, trigger));
    b := With(a, h, Asking(a.keys[trigger], false));
  }

  /** The second handler has taken up the turn that the first is about to commit. */
  lemma ReachBothAtWork(limits: Limits) returns (a: Agent)
    requires limits.maxTurns >= 1 && limits.maxToolCalls == 0
    ensures Reachable(limits, a) && a.pcs == [Cleared(0, false, 2), Asking(0, false)] && Continuable(a.db, 0, 0)
    ensures TurnCount(a.db, 0) == 0 && a.db.turns == [Turn(0, TurnOpen)]
  {
    var s := ReachFirstCleared(limits, false);
    ReachedIsReachable(limits, s);
    a := ResumeOne(limits, s, 1, FromSnapshot(0));
  }

  lemma ReachOvertaken(limits: Limits) returns (a: Agent)
    requires limits.maxTurns >= 1 && limits.maxToolCalls == 0
    ensures Reachable(limits, a) && a.pcs == [Resting, Asking(0, false)] && Continuable(a.db, 0, 0)
    ensures TurnCount(a.db, 0) == 1 && a.db.turns == [Turn(0, TurnCompleted)]
  {
    var s := ReachBothAtWork(limits);
    var requests := [Request("a", None), Request("b", None)];
    CommittedDb(s.db, 0, requests);
    GoOn(limits, s, CommitTools(0, requests));
    a := Agent(ApplyTurn(s.db, CompleteWithTools(0, 0, 0, requests)), s.keys, [Resting, Asking(0, false)]);
    assert Act(s, 0, limits, CommitTools(0, requests)) == a;
  }

  /** Two handlers on one turn after the claim of the first has lapsed: one turn, counted twice. */
  lemma LapsedClaimCountsTwice(limits: Limits) returns (a: Agent)
    requires limits.maxTurns >= 1 && limits.maxToolCalls == 0
    ensures Reachable(limits, a) && TurnCount(a.db, 0) == 2 && CountCompleted(a.db.turns, 0) == 1
  {
    var s := ReachOvertaken(limits);
    GoOn(limits, s, CommitAnswer(1));
    a := Act(s, 0, limits, CommitAnswer(1));
    assert a.db.turns == [Turn(0, TurnCompleted)] && a.db.turns[..0] == [];
  }
}
