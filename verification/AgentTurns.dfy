/** The handlers of one agent's events, each a program of several transactions.  Tool-call events are
    keyed by tool call, so several handlers of one agent can be at work at once, next to every other
    worker.  Turn counting, the turn limit and the tool-call limit. */
module AgentTurns {
  import opened Wrappers
  import opened Platform
  import opened Agreement
  import opened Endings
  import Join

  datatype Limits = Limits(maxTurns: nat, maxToolCalls: nat)

  /** The domain keys of the events that start a turn. */
  datatype Trigger = FromSnapshot(snapshot: nat) | FromCall(c: nat)

  /** Between two transactions of a handler: the checks for a new turn have passed, or a turn row is
      open and the model is being asked, or its answer with `n` tool calls has passed the limit check.
      `late` records that the turn was taken up when the turn count had reached the limit. */
  datatype Pc =
    | Resting
    | Looked(trigger: Trigger)
    | Asking(t: nat, late: bool)
    | Cleared(t: nat, late: bool, n: nat)

  /** `keys` gives the turn row of each domain key, unique by index. */
  datatype Agent = Agent(db: Db, keys: map<Trigger, nat>, pcs: seq<Pc>)

  datatype Move =
    | Elsewhere(step: Step)
    | Spawn
    | Look(h: nat, trigger: Trigger)
    | Begin(h: nat)
    | Resume(h: nat, trigger: Trigger)
    | GiveUp(h: nat, fail: bool)
    | Check(h: nat, n: nat)
    | CommitTools(h: nat, requests: seq<Request>)
    | CommitAnswer(h: nat)

  function CountCalls(calls: seq<Call>, g: nat): nat {
    if calls == [] then 0
    else CountCalls(calls[..|calls| - 1], g) + if calls[|calls| - 1].agent == g then 1 else 0
  }

  function CountCompleted(turns: seq<Turn>, g: nat): nat {
    if turns == [] then 0
    else
      CountCompleted(turns[..|turns| - 1], g) +
      if turns[|turns| - 1].agent == g && turns[|turns| - 1].status.TurnCompleted? then 1 else 0
  }

  predicate TurnOf(db: Db, t: nat, g: nat) {
    t < |db.turns| && db.turns[t].agent == g
  }

  /** The transaction belongs to the handlers of agent `g`. */
  predicate HandlerStep(db: Db, step: Step, g: nat) {
    step.Turning? &&
    match step.turn
    case SetPhase(_, _) => false
    case StartTurn(h) => h == g
    case FailTurn(t) => TurnOf(db, t, g)
    case CompleteWithTools(t, _, h, _) => h == g || TurnOf(db, t, g)
    case CompleteWithAnswer(t, _, h) => h == g || TurnOf(db, t, g)
  }

  predicate OverToolLimit(db: Db, g: nat, limits: Limits, extra: nat) {
    limits.maxToolCalls > 0 && CountCalls(db.calls, g) + extra > limits.maxToolCalls
  }

  /** The event of the trigger was written for this agent and is not ignored by a waiting session. */
  predicate TriggerSeen(db: Db, g: nat, trigger: Trigger) {
    SessionIsLive(db, g) &&
    match trigger
    case FromSnapshot(x) =>
      SnapshotReady(g) in db.outbox && db.sessions[g].snapshot == Some(x) && db.sessions[g].status != Live(WaitingTool)
    case FromCall(c) => c < |db.calls| && db.calls[c].agent == g && ToolEnded(c) in db.outbox
  }

  predicate OutputsReady(db: Db, trigger: Trigger) {
    trigger.FromCall? ==>
      trigger.c < |db.calls| && AnsweredCall(db.calls[trigger.c].status) &&
      Join.NoOpenCall(db.calls, db.calls[trigger.c].turn)
  }

  function TurnCount(db: Db, g: nat): nat {
    if g < |db.sessions| then db.sessions[g].turnCount else 0
  }

  function With(a: Agent, h: nat, pc: Pc): Agent
    requires h < |a.pcs|
  {
    a.(pcs := a.pcs[h := pc])
  }

  predicate IsResting(a: Agent, h: nat) {
    h < |a.pcs| && a.pcs[h].Resting?
  }

  function Failing(a: Agent, g: nat): Agent {
    a.(db := ApplyLife(a.db, FailAnalysis(g, g)))
  }

  function Act(a: Agent, g: nat, limits: Limits, move: Move): Agent {
    match move
    case Elsewhere(step) => if HandlerStep(a.db, step, g) then a else a.(db := Apply(a.db, step))
    case Spawn => a.(pcs := a.pcs + [Resting])
    case Look(h, trigger) => LookedUp(a, g, limits, h, trigger)
    case Begin(h) =>
      if h >= |a.pcs| || !a.pcs[h].Looked? || g >= |a.db.sessions| then a
      else if a.pcs[h].trigger in a.keys then With(a, h, Resting)
      else Agent(ApplyTurn(a.db, StartTurn(g)), a.keys[a.pcs[h].trigger := |a.db.turns|],
                 a.pcs[h := Asking(|a.db.turns|, TurnCount(a.db, g) >= limits.maxTurns)])
    case Resume(h, trigger) =>
      if Resumable(a, g, h, trigger)
      then With(a, h, Asking(a.keys[trigger], TurnCount(a.db, g) >= limits.maxTurns)) else a
    case GiveUp(h, fail) =>
      if h >= |a.pcs| then a
      else if fail && Held(a.pcs[h]) then With(a, h, Resting).(db := ApplyTurn(a.db, FailTurn(a.pcs[h].t)))
      else With(a, h, Resting)
    case Check(h, n) =>
      if h >= |a.pcs| || !a.pcs[h].Asking? then a
      else if !SessionIsLive(a.db, g) then With(a, h, Resting)
      else if OverToolLimit(a.db, g, limits, n) then With(Failing(a, g), h, Resting)
      else With(a, h, Cleared(a.pcs[h].t, a.pcs[h].late, n))
    case CommitTools(h, requests) =>
      if h < |a.pcs| && a.pcs[h].Cleared? && |requests| == a.pcs[h].n
      then With(a, h, Resting).(db := ApplyTurn(a.db, CompleteWithTools(a.pcs[h].t, g, g, requests))) else a
    case CommitAnswer(h) =>
      if h < |a.pcs| && a.pcs[h].Asking?
      then With(a, h, Resting).(db := ApplyTurn(a.db, CompleteWithAnswer(a.pcs[h].t, g, g))) else a
  }

  /** The reads before a new turn: an existing turn is not started again, and both limits are tested. */
  function LookedUp(a: Agent, g: nat, limits: Limits, h: nat, trigger: Trigger): Agent {
    if !IsResting(a, h) || !TriggerSeen(a.db, g, trigger) || trigger in a.keys || a.db.sessions[g].snapshot.None? then a
    else if TurnCount(a.db, g) >= limits.maxTurns || OverToolLimit(a.db, g, limits, 1) then Failing(a, g)
    else if !OutputsReady(a.db, trigger) then a
    else With(a, h, Looked(trigger))
  }

  /** An interrupted turn is taken up again without a look at either limit. */
  predicate Resumable(a: Agent, g: nat, h: nat, trigger: Trigger) {
    IsResting(a, h) && TriggerSeen(a.db, g, trigger) && trigger in a.keys &&
    TurnOf(a.db, a.keys[trigger], g) && a.db.turns[a.keys[trigger]].status.TurnOpen?
  }

  function Drive(a: Agent, g: nat, limits: Limits, moves: seq<Move>): Agent {
    if moves == [] then a
    else Act(Drive(a, g, limits, moves[..|moves| - 1]), g, limits, moves[|moves| - 1])
  }

  function Fresh(): Agent {
    Agent(Initial(), map[], [])
  }

  // --- Counting ---

  lemma {:induction false} CountAppend(calls: seq<Call>, more: seq<Call>, g: nat)
    ensures CountCalls(calls + more, g) == CountCalls(calls, g) + CountCalls(more, g)
  {
    if more == [] {
      assert calls + more == calls;
    } else {
      CountAppend(calls, more[..|more| - 1], g);
      assert (calls + more)[..|calls + more| - 1] == calls + more[..|more| - 1];
    }
  }

  lemma {:induction false} CountSame(before: seq<Call>, after: seq<Call>, g: nat)
    requires |before| == |after| && forall i :: 0 <= i < |before| ==> before[i].agent == after[i].agent
    ensures CountCalls(before, g) == CountCalls(after, g)
  {
    if before != [] {
      CountSame(before[..|before| - 1], after[..|after| - 1], g);
    }
  }

  lemma {:induction false} CountZero(calls: seq<Call>, g: nat)
    requires forall i :: 0 <= i < |calls| ==> calls[i].agent != g
    ensures CountCalls(calls, g) == 0
  {
    if calls != [] {
      CountZero(calls[..|calls| - 1], g);
    }
  }

  lemma {:induction false} CountInserted(calls: seq<Call>, g: nat, t: nat, requests: seq<Request>)
    ensures CountCalls(InsertCalls(calls, g, t, requests), g) <= CountCalls(calls, g) + |requests|
  {
    if requests != [] {
      var n := |requests| - 1;
      CountInserted(calls, g, t, requests[..n]);
      CountAppend(InsertCalls(calls, g, t, requests[..n]), [NewCall(g, t, requests[n])], g);
      assert CountCalls([NewCall(g, t, requests[n])], g) == 1;
    }
  }

  lemma {:induction false} CompletedAfterUpdate(turns: seq<Turn>, t: nat, status: TurnStatus, g: nat)
    requires t < |turns|
    ensures CountCompleted(turns[t := turns[t].(status := status)], g) ==
            CountCompleted(turns, g)
            - (if turns[t].agent == g && turns[t].status.TurnCompleted? then 1 else 0)
            + (if turns[t].agent == g && status.TurnCompleted? then 1 else 0)
  {
    var n := |turns| - 1;
    var changed := turns[t := turns[t].(status := status)];
    if t == n {
      assert changed[..n] == turns[..n];
    } else {
      CompletedAfterUpdate(turns[..n], t, status, g);
      assert changed[..n] == turns[..n][t := turns[t].(status := status)];
    }
  }

  // --- Turn counting ---

  predicate Held(pc: Pc) {
    pc.Asking? || pc.Cleared?
  }

  predicate PcFits(db: Db, pc: Pc, g: nat) {
    Held(pc) ==> TurnOf(db, pc.t, g) && !db.turns[pc.t].status.TurnCompleted?
  }

  predicate PcsFit(db: Db, pcs: seq<Pc>, g: nat) {
    (forall h :: 0 <= h < |pcs| ==> PcFits(db, pcs[h], g)) &&
    (forall h, k :: 0 <= h < k < |pcs| && Held(pcs[h]) && Held(pcs[k]) ==> pcs[h].t != pcs[k].t)
  }

  predicate TurnsCounted(db: Db, g: nat) {
    CountCompleted(db.turns, g) == TurnCount(db, g)
  }

  predicate AgentInv(a: Agent, g: nat) {
    Linked(a.db) && TurnsCounted(a.db, g) && PcsFit(a.db, a.pcs, g)
  }

  /** What the event claim arranges: a turn is not taken up while another handler works on it. */
  predicate Claimed(a: Agent, move: Move) {
    move.Resume? && move.trigger in a.keys ==>
      forall h :: 0 <= h < |a.pcs| && Held(a.pcs[h]) ==> a.pcs[h].t != a.keys[move.trigger]
  }

  /** Every move of the run respects the claim in the state it finds. */
  predicate AllClaimed(g: nat, limits: Limits, moves: seq<Move>) {
    moves == [] ||
    (AllClaimed(g, limits, moves[..|moves| - 1]) &&
     Claimed(Drive(Fresh(), g, limits, moves[..|moves| - 1]), moves[|moves| - 1]))
  }

  lemma LifeKeepsCounts(db: Db, step: LifeStep, g: nat)
    requires Linked(db) && TurnsCounted(db, g)
    ensures TurnsCounted(ApplyLife(db, step), g)
    ensures CountCalls(ApplyLife(db, step).calls, g) == CountCalls(db.calls, g)
    ensures g < |db.sessions| ==> ApplyLife(db, step).sessions[g].turnCount == db.sessions[g].turnCount
  {
    LifeFrame(db, step);
    CountSame(db.calls, ApplyLife(db, step).calls, g);
  }

  lemma CallKeepsCounts(db: Db, step: CallStep, g: nat)
    ensures CountCalls(ApplyCall(db, step).calls, g) == CountCalls(db.calls, g)
  {
    CallFrame(db, step);
    CountSame(db.calls, ApplyCall(db, step).calls, g);
  }

  lemma OtherTurnKeepsCalls(db: Db, step: TurnStep, g: nat)
    requires !HandlerStep(db, Turning(step), g)
    ensures CountCalls(ApplyTurn(db, step).calls, g) == CountCalls(db.calls, g)
  {
    TurnFrame(db, step);
    if step.CompleteWithTools? {
      InsertedCallsBelong(db.calls, step.g, step.t, step.requests);
      var after := ApplyTurn(db, step).calls;
      assert after == db.calls + after[|db.calls|..];
      CountAppend(db.calls, after[|db.calls|..], g);
      CountZero(after[|db.calls|..], g);
    }
  }

  /** Turns of other agents are not counted. */
  lemma ForeignTurn(turns: seq<Turn>, t: nat, status: TurnStatus, g: nat)
    requires t < |turns| && turns[t].agent != g
    ensures CountCompleted(turns[t := turns[t].(status := status)], g) == CountCompleted(turns, g)
  {
    CompletedAfterUpdate(turns, t, status, g);
  }

  lemma OtherTurnKeepsCompleted(db: Db, step: TurnStep, g: nat)
    requires !HandlerStep(db, Turning(step), g)
    ensures CountCompleted(ApplyTurn(db, step).turns, g) == CountCompleted(db.turns, g)
  {
    match step
    case SetPhase(_, _) =>
    case StartTurn(h) => assert (db.turns + [Turn(h, TurnOpen)])[..|db.turns|] == db.turns;
    case FailTurn(t) => if t < |db.turns| { ForeignTurn(db.turns, t, TurnFailed, g); }
    case CompleteWithTools(t, _, _, _) => if t < |db.turns| { ForeignTurn(db.turns, t, TurnCompleted, g); }
    case CompleteWithAnswer(t, _, _) => if t < |db.turns| { ForeignTurn(db.turns, t, TurnCompleted, g); }
  }

  lemma OtherTurnKeepsTurns(db: Db, step: TurnStep, g: nat)
    requires TurnsCounted(db, g) && !HandlerStep(db, Turning(step), g)
    ensures TurnsCounted(ApplyTurn(db, step), g)
  {
    OtherTurnKeepsCompleted(db, step, g);
    OtherTurnKeepsTurnCount(db, step, g);
  }

  lemma ElsewhereKeepsInv(a: Agent, g: nat, step: Step)
    requires AgentInv(a, g) && !HandlerStep(a.db, step, g)
    ensures AgentInv(a.(db := Apply(a.db, step)), g)
    ensures CountCalls(Apply(a.db, step).calls, g) == CountCalls(a.db.calls, g)
  {
    StepKeepsLinked(a.db, step);
    match step
    case Life(s) =>
      LifeFrame(a.db, s);
      LifeKeepsCounts(a.db, s, g);
    case Turning(s) =>
      OtherTurnKeepsCalls(a.db, s, g);
      OtherTurnKeepsTurns(a.db, s, g);
    case Calling(s) =>
      CallFrame(a.db, s);
      CallKeepsCounts(a.db, s, g);
  }

  lemma FailingKeepsInv(a: Agent, g: nat)
    requires AgentInv(a, g)
    ensures AgentInv(Failing(a, g), g) && CountCalls(Failing(a, g).db.calls, g) == CountCalls(a.db.calls, g)
    ensures TurnCount(Failing(a, g).db, g) == TurnCount(a.db, g)
  {
    LifeKeepsLinked(a.db, FailAnalysis(g, g));
    LifeKeepsCounts(a.db, FailAnalysis(g, g), g);
  }

  lemma BeginKeepsInv(a: Agent, g: nat, limits: Limits, h: nat)
    requires AgentInv(a, g)
    ensures AgentInv(Act(a, g, limits, Begin(h)), g)
  {
    assert (a.db.turns + [Turn(g, TurnOpen)])[..|a.db.turns|] == a.db.turns;
  }

  /** A turn that one handler commits or fails is no other handler's. */
  lemma TurnEndKeepsPcs(db: Db, pcs: seq<Pc>, g: nat, h: nat, turns: seq<Turn>)
    requires PcsFit(db, pcs, g) && h < |pcs| && Held(pcs[h]) && |turns| == |db.turns|
    requires forall t :: 0 <= t < |turns| && t != pcs[h].t ==> turns[t] == db.turns[t]
    ensures PcsFit(db.(turns := turns), pcs[h := Resting], g)
  {
  }

  lemma CommitKeepsInv(a: Agent, g: nat, h: nat, requests: seq<Request>)
    requires AgentInv(a, g) && h < |a.pcs| && Held(a.pcs[h])
    ensures var db := ApplyTurn(a.db, CompleteWithTools(a.pcs[h].t, g, g, requests));
            AgentInv(Agent(db, a.keys, a.pcs[h := Resting]), g) &&
            CountCalls(db.calls, g) <= CountCalls(a.db.calls, g) + |requests| &&
            TurnCount(db, g) == TurnCount(a.db, g) + if Continuable(a.db, g, g) then 1 else 0
  {
    var t := a.pcs[h].t;
    TurnKeepsLinked(a.db, CompleteWithTools(t, g, g, requests));
    CompletedAfterUpdate(a.db.turns, t, TurnCompleted, g);
    CountInserted(a.db.calls, g, t, requests);
    TurnEndKeepsPcs(a.db, a.pcs, g, h, a.db.turns[t := a.db.turns[t].(status := TurnCompleted)]);
  }

  lemma AnswerKeepsInv(a: Agent, g: nat, h: nat)
    requires AgentInv(a, g) && h < |a.pcs| && Held(a.pcs[h])
    ensures var db := ApplyTurn(a.db, CompleteWithAnswer(a.pcs[h].t, g, g));
            AgentInv(Agent(db, a.keys, a.pcs[h := Resting]), g) && db.calls == a.db.calls &&
            TurnCount(db, g) == TurnCount(a.db, g) + if Continuable(a.db, g, g) then 1 else 0
  {
    var t := a.pcs[h].t;
    TurnKeepsLinked(a.db, CompleteWithAnswer(t, g, g));
    CompletedAfterUpdate(a.db.turns, t, TurnCompleted, g);
    TurnEndKeepsPcs(a.db, a.pcs, g, h, a.db.turns[t := a.db.turns[t].(status := TurnCompleted)]);
  }

  lemma GiveUpKeepsInv(a: Agent, g: nat, limits: Limits, h: nat, fail: bool)
    requires AgentInv(a, g)
    ensures AgentInv(Act(a, g, limits, GiveUp(h, fail)), g)
  {
    if h < |a.pcs| && fail && Held(a.pcs[h]) {
      var t := a.pcs[h].t;
      CompletedAfterUpdate(a.db.turns, t, TurnFailed, g);
      TurnEndKeepsPcs(a.db, a.pcs, g, h, a.db.turns[t := a.db.turns[t].(status := TurnFailed)]);
    }
  }

  /** A handler that takes nothing up leaves the turns to the others. */
  lemma IdlePcKeepsInv(a: Agent, g: nat, h: nat, pc: Pc)
    requires AgentInv(a, g) && h < |a.pcs|
    requires Held(pc) ==> Held(a.pcs[h]) && pc.t == a.pcs[h].t
    ensures AgentInv(With(a, h, pc), g)
  {
  }

  lemma ResumeKeepsInv(a: Agent, g: nat, limits: Limits, h: nat, trigger: Trigger)
    requires AgentInv(a, g) && Claimed(a, Resume(h, trigger))
    ensures AgentInv(Act(a, g, limits, Resume(h, trigger)), g)
  {
  }

  lemma LookKeepsInv(a: Agent, g: nat, limits: Limits, h: nat, trigger: Trigger)
    requires AgentInv(a, g)
    ensures AgentInv(LookedUp(a, g, limits, h, trigger), g)
  {
    FailingKeepsInv(a, g);
    if h < |a.pcs| {
      IdlePcKeepsInv(a, g, h, Looked(trigger));
    }
  }

  lemma CheckKeepsInv(a: Agent, g: nat, limits: Limits, h: nat, n: nat)
    requires AgentInv(a, g)
    ensures AgentInv(Act(a, g, limits, Check(h, n)), g)
  {
    if h < |a.pcs| && a.pcs[h].Asking? {
      FailingKeepsInv(a, g);
      IdlePcKeepsInv(a, g, h, Resting);
      IdlePcKeepsInv(Failing(a, g), g, h, Resting);
      IdlePcKeepsInv(a, g, h, Cleared(a.pcs[h].t, a.pcs[h].late, n));
    }
  }

  lemma ActKeepsInv(a: Agent, g: nat, limits: Limits, move: Move)
    requires AgentInv(a, g) && Claimed(a, move)
    ensures AgentInv(Act(a, g, limits, move), g)
  {
    match move
    case Elsewhere(step) => if !HandlerStep(a.db, step, g) { ElsewhereKeepsInv(a, g, step); }
    case Spawn =>
    case Look(h, trigger) => LookKeepsInv(a, g, limits, h, trigger);
    case Begin(h) => BeginKeepsInv(a, g, limits, h);
    case Resume(h, trigger) => ResumeKeepsInv(a, g, limits, h, trigger);
    case GiveUp(h, fail) => GiveUpKeepsInv(a, g, limits, h, fail);
    case Check(h, n) => CheckKeepsInv(a, g, limits, h, n);
    case CommitTools(h, requests) => if h < |a.pcs| && a.pcs[h].Cleared? { CommitKeepsInv(a, g, h, requests); }
    case CommitAnswer(h) => if h < |a.pcs| && a.pcs[h].Asking? { AnswerKeepsInv(a, g, h); }
  }

  /** With any number of handlers at work, retries, crashes and every other worker included,
      `turn_count` is the number of completed turns. */
  lemma {:induction false} TurnCountIsExact(g: nat, limits: Limits, moves: seq<Move>)
    requires AllClaimed(g, limits, moves)
    ensures var a := Drive(Fresh(), g, limits, moves);
            AgentInv(a, g) && (g < |a.db.sessions| ==> a.db.sessions[g].turnCount == CountCompleted(a.db.turns, g))
  {
    if moves != [] {
      var n := |moves| - 1;
      TurnCountIsExact(g, limits, moves[..n]);
      ActKeepsInv(Drive(Fresh(), g, limits, moves[..n]), g, limits, moves[n]);
    }
  }

  /** The claim is needed: committing a turn keeps `turn_count` equal to the number of completed turns
      exactly when that turn was not completed already. */
  lemma CommitCountsIff(db: Db, t: nat, g: nat, requests: seq<Request>)
    requires Linked(db) && TurnsCounted(db, g) && TurnOf(db, t, g) && Continuable(db, g, g)
    ensures TurnsCounted(ApplyTurn(db, CompleteWithTools(t, g, g, requests)), g) <==>
            !db.turns[t].status.TurnCompleted?
  {
    CompletedAfterUpdate(db.turns, t, TurnCompleted, g);
  }

  // --- What the reads decide ---

  /** The call is answered and no call of its turn is queued or running. */
  predicate TurnAnswered(calls: seq<Call>, c: nat)
    requires c < |calls|
  {
    (calls[c].status.CallCompleted? || calls[c].status.CallFailed? || calls[c].status.CallDenied?) &&
    forall d :: 0 <= d < |calls| && calls[d].turn == calls[c].turn ==>
      !calls[d].status.CallQueued? && !calls[d].status.CallRunning?
  }

  /** The reads before a new turn, for a trigger that was not started yet on a session with its snapshot:
      at max_turns or with max_tool_calls stored calls the analysis fails; while a call of the trigger's turn
      is not answered nothing happens; else the handler goes on to start the turn. */
  lemma LookDecides(a: Agent, g: nat, limits: Limits, h: nat, trigger: Trigger)
    requires IsResting(a, h) && TriggerSeen(a.db, g, trigger) && trigger !in a.keys && a.db.sessions[g].snapshot.Some?
    ensures Act(a, g, limits, Look(h, trigger)) ==
            if a.db.sessions[g].turnCount >= limits.maxTurns ||
               (limits.maxToolCalls > 0 && CountCalls(a.db.calls, g) >= limits.maxToolCalls)
            then a.(db := Apply(a.db, Life(FailAnalysis(g, g))))
            else if trigger.FromCall? && !TurnAnswered(a.db.calls, trigger.c) then a
            else a.(pcs := a.pcs[h := Looked(trigger)])
  {
  }

  /** The start of the turn: one open turn row under the trigger's key, unless the key has one by now.  The
      turn is late if the count has reached the limit since the look. */
  lemma BeginDecides(a: Agent, g: nat, limits: Limits, h: nat)
    requires h < |a.pcs| && a.pcs[h].Looked? && g < |a.db.sessions|
    ensures var trigger, t := a.pcs[h].trigger, |a.db.turns|;
            var after := Act(a, g, limits, Begin(h));
            if trigger in a.keys then after == a.(pcs := a.pcs[h := Resting])
            else
              after.db == a.db.(turns := a.db.turns + [Turn(g, TurnOpen)]) && after.keys == a.keys[trigger := t] &&
              after.pcs == a.pcs[h := Asking(t, a.db.sessions[g].turnCount >= limits.maxTurns)]
  {
  }

  /** The check of an answer with `n` tool calls: past an ended session nothing happens, over the limit the
      analysis fails, and otherwise the calls are cleared. */
  lemma CheckDecides(a: Agent, g: nat, limits: Limits, h: nat, n: nat)
    requires h < |a.pcs| && a.pcs[h].Asking?
    ensures var after := Act(a, g, limits, Check(h, n));
            if !SessionIsLive(a.db, g) then after == a.(pcs := a.pcs[h := Resting])
            else if limits.maxToolCalls > 0 && CountCalls(a.db.calls, g) + n > limits.maxToolCalls
            then after == a.(db := Apply(a.db, Life(FailAnalysis(g, g))), pcs := a.pcs[h := Resting])
            else after.db == a.db && after.keys == a.keys && |after.pcs| == |a.pcs| && after.pcs[h].Cleared? &&
                 after.pcs[h].t == a.pcs[h].t && after.pcs[h].n == n && after.pcs == a.pcs[h := after.pcs[h]]
  {
  }

  /** Over any run each trigger keeps the one turn it started. */
  lemma {:induction false} TriggerKeepsItsTurn(a: Agent, g: nat, limits: Limits, moves: seq<Move>, trigger: Trigger)
    requires trigger in a.keys
    ensures trigger in Drive(a, g, limits, moves).keys && Drive(a, g, limits, moves).keys[trigger] == a.keys[trigger]
  {
    if moves != [] {
      var n := |moves| - 1;
      TriggerKeepsItsTurn(a, g, limits, moves[..n], trigger);
      ActKeepsKeys(Drive(a, g, limits, moves[..n]), g, limits, moves[n], trigger);
    }
  }

  lemma ActKeepsKeys(a: Agent, g: nat, limits: Limits, move: Move, trigger: Trigger)
    requires trigger in a.keys
    ensures trigger in Act(a, g, limits, move).keys && Act(a, g, limits, move).keys[trigger] == a.keys[trigger]
  {
  }

  /** The number of turn rows of the agent. */
  function CountTurns(turns: seq<Turn>, g: nat): nat {
    if turns == [] then 0
    else CountTurns(turns[..|turns| - 1], g) + if turns[|turns| - 1].agent == g then 1 else 0
  }

  lemma {:induction false} SameAgentsSameCount(before: seq<Turn>, after: seq<Turn>, g: nat)
    requires |before| == |after| && forall i :: 0 <= i < |before| ==> before[i].agent == after[i].agent
    ensures CountTurns(before, g) == CountTurns(after, g)
  {
    if before != [] {
      SameAgentsSameCount(before[..|before| - 1], after[..|after| - 1], g);
    }
  }

  /** Turns of the agent are started by its handlers only: one with each start. */
  lemma StartsOwnTurns(a: Agent, g: nat, limits: Limits, move: Move)
    ensures CountTurns(Act(a, g, limits, move).db.turns, g) ==
            CountTurns(a.db.turns, g) + if Act(a, g, limits, move).keys != a.keys then 1 else 0
  {
    var turns, after := a.db.turns, Act(a, g, limits, move).db.turns;
    if |after| == |turns| {
      StepKeepsAgents(a, g, limits, move);
      SameAgentsSameCount(turns, after, g);
    } else {
      StepAddsTurn(a, g, limits, move);
      assert after[..|turns|] == turns;
    }
  }

  lemma StepKeepsAgents(a: Agent, g: nat, limits: Limits, move: Move)
    requires |Act(a, g, limits, move).db.turns| == |a.db.turns|
    ensures Act(a, g, limits, move).keys == a.keys
    ensures forall i :: 0 <= i < |a.db.turns| ==> Act(a, g, limits, move).db.turns[i].agent == a.db.turns[i].agent
  {
    var step := ActIsStep(a, g, limits, move);
    if step.Some? {
      StepKeepsTurns(a.db, step.value);
    }
  }

  lemma StepAddsTurn(a: Agent, g: nat, limits: Limits, move: Move)
    requires |Act(a, g, limits, move).db.turns| != |a.db.turns|
    ensures var after := Act(a, g, limits, move);
            |after.db.turns| == |a.db.turns| + 1 && after.db.turns[..|a.db.turns|] == a.db.turns &&
            (after.db.turns[|a.db.turns|].agent == g <==> after.keys != a.keys)
  {
    var step := ActIsStep(a, g, limits, move);
    match step.value
    case Life(s) => LifeFrame(a.db, s);
    case Calling(s) => CallFrame(a.db, s);
    case Turning(s) =>
  }

  // --- Turn counting without the claim ---

  /** The move commits a turn and the session lets it. */
  predicate Commits(a: Agent, g: nat, move: Move) {
    Continuable(a.db, g, g) &&
    match move
    case CommitTools(h, requests) => h < |a.pcs| && a.pcs[h].Cleared? && |requests| == a.pcs[h].n
    case CommitAnswer(h) => h < |a.pcs| && a.pcs[h].Asking?
    case _ => false
  }

  /** The move marks a turn as failed, whatever its status. */
  predicate FailsTurn(a: Agent, move: Move) {
    move.GiveUp? && move.fail && move.h < |a.pcs| && Held(a.pcs[move.h])
  }

  /** The move commits or fails a turn that another handler has completed. */
  predicate Repeats(a: Agent, g: nat, move: Move) {
    (Commits(a, g, move) || FailsTurn(a, move)) &&
    var t := a.pcs[move.h].t;
    t < |a.db.turns| && a.db.turns[t].status.TurnCompleted?
  }

  /** The number of such moves in a run. */
  function RepeatsIn(g: nat, limits: Limits, moves: seq<Move>): nat {
    if moves == [] then 0
    else
      var n := |moves| - 1;
      RepeatsIn(g, limits, moves[..n]) + if Repeats(Drive(Fresh(), g, limits, moves[..n]), g, moves[n]) then 1 else 0
  }

  predicate HeldFit(a: Agent, g: nat) {
    Linked(a.db) && forall h :: 0 <= h < |a.pcs| && Held(a.pcs[h]) ==> TurnOf(a.db, a.pcs[h].t, g)
  }

  /** How far the two counts are apart. */
  function Surplus(db: Db, g: nat): int {
    TurnCount(db, g) - CountCompleted(db.turns, g)
  }

  /** Completing or failing turn `t` of the agent moves the counts apart exactly if it was completed. */
  lemma EndingAddsSurplus(db: Db, g: nat, t: nat, step: TurnStep)
    requires Linked(db) && TurnOf(db, t, g)
    requires step == FailTurn(t) ||
             (Continuable(db, g, g) && (step == CompleteWithAnswer(t, g, g) ||
                                        (step.CompleteWithTools? && step == CompleteWithTools(t, g, g, step.requests))))
    ensures Surplus(ApplyTurn(db, step), g) == Surplus(db, g) + if db.turns[t].status.TurnCompleted? then 1 else 0
  {
    var status := if step.FailTurn? then TurnFailed else TurnCompleted;
    CompletedAfterUpdate(db.turns, t, status, g);
    assert ApplyTurn(db, step).turns == db.turns[t := db.turns[t].(status := status)];
  }

  lemma CommitAddsSurplus(a: Agent, g: nat, limits: Limits, move: Move)
    requires HeldFit(a, g) && (move.CommitTools? || move.CommitAnswer?)
    ensures Surplus(Act(a, g, limits, move).db, g) == Surplus(a.db, g) + if Repeats(a, g, move) then 1 else 0
  {
    if Commits(a, g, move) {
      var t := a.pcs[move.h].t;
      var tools := move.CommitTools?;
      EndingAddsSurplus(
        a.db, g, t, if tools then CompleteWithTools(t, g, g, move.requests) else CompleteWithAnswer(t, g, g));
    }
  }

  lemma ElsewhereKeepsSurplus(db: Db, step: Step, g: nat)
    requires Linked(db) && !HandlerStep(db, step, g)
    ensures Surplus(Apply(db, step), g) == Surplus(db, g)
  {
    ElsewhereKeepsTurnCount(db, step, g);
    match step
    case Life(s) => LifeFrame(db, s);
    case Turning(s) => OtherTurnKeepsCompleted(db, s, g);
    case Calling(s) => CallFrame(db, s);
  }

  lemma FailingKeepsSurplus(a: Agent, g: nat)
    requires Linked(a.db)
    ensures Surplus(Failing(a, g).db, g) == Surplus(a.db, g)
  {
    LifeFrame(a.db, FailAnalysis(g, g));
    LifeKeepsTurnCount(a.db, FailAnalysis(g, g), g);
  }

  lemma ActAddsSurplus(a: Agent, g: nat, limits: Limits, move: Move)
    requires HeldFit(a, g)
    ensures Surplus(Act(a, g, limits, move).db, g) == Surplus(a.db, g) + if Repeats(a, g, move) then 1 else 0
  {
    match move
    case Elsewhere(step) => if !HandlerStep(a.db, step, g) { ElsewhereKeepsSurplus(a.db, step, g); }
    case Look(_, _) => FailingKeepsSurplus(a, g);
    case Begin(_) => assert (a.db.turns + [Turn(g, TurnOpen)])[..|a.db.turns|] == a.db.turns;
    case Check(_, _) => FailingKeepsSurplus(a, g);
    case GiveUp(h, _) => if FailsTurn(a, move) { EndingAddsSurplus(a.db, g, a.pcs[h].t, FailTurn(a.pcs[h].t)); }
    case CommitTools(_, _) => CommitAddsSurplus(a, g, limits, move);
    case CommitAnswer(_) => CommitAddsSurplus(a, g, limits, move);
    case _ =>
  }

  /** Turn rows stay and keep their agent. */
  predicate TurnsStay(db: Db, after: Db) {
    |db.turns| <= |after.turns| && forall t :: 0 <= t < |db.turns| ==> after.turns[t].agent == db.turns[t].agent
  }

  lemma StepKeepsTurns(db: Db, step: Step)
    ensures TurnsStay(db, Apply(db, step))
  {
    match step
    case Life(s) => LifeFrame(db, s);
    case Turning(s) =>
    case Calling(s) => CallFrame(db, s);
  }

  /** What a move does to the tables is one transaction, or nothing. */
  lemma ActIsStep(a: Agent, g: nat, limits: Limits, move: Move) returns (step: Option<Step>)
    ensures Act(a, g, limits, move).db == if step.Some? then Apply(a.db, step.value) else a.db
  {
    if Act(a, g, limits, move).db == a.db {
      return None;
    }
    match move
    case Elsewhere(s) => step := Some(s);
    case Look(_, _) => step := Some(Life(FailAnalysis(g, g)));
    case Begin(_) => step := Some(Turning(StartTurn(g)));
    case Check(_, _) => step := Some(Life(FailAnalysis(g, g)));
    case GiveUp(h, _) => step := Some(Turning(FailTurn(a.pcs[h].t)));
    case CommitTools(h, requests) => step := Some(Turning(CompleteWithTools(a.pcs[h].t, g, g, requests)));
    case CommitAnswer(h) => step := Some(Turning(CompleteWithAnswer(a.pcs[h].t, g, g)));
  }

  lemma ActKeepsHeldFit(a: Agent, g: nat, limits: Limits, move: Move)
    requires HeldFit(a, g)
    ensures HeldFit(Act(a, g, limits, move), g)
  {
    var step := ActIsStep(a, g, limits, move);
    if step.Some? {
      StepKeepsLinked(a.db, step.value);
      StepKeepsTurns(a.db, step.value);
    }
  }

  /** Without any claim, over every run: `turn_count` exceeds the number of completed turns by the number
      of moves that commit or fail a turn completed before, so it is exact if and only if there are none. */
  lemma {:induction false} TurnCountExactIff(g: nat, limits: Limits, moves: seq<Move>)
    ensures var a := Drive(Fresh(), g, limits, moves);
            HeldFit(a, g) && TurnCount(a.db, g) == CountCompleted(a.db.turns, g) + RepeatsIn(g, limits, moves) &&
            (TurnsCounted(a.db, g) <==> RepeatsIn(g, limits, moves) == 0)
  {
    if moves != [] {
      var n := |moves| - 1;
      TurnCountExactIff(g, limits, moves[..n]);
      var a := Drive(Fresh(), g, limits, moves[..n]);
      ActAddsSurplus(a, g, limits, moves[n]);
      ActKeepsHeldFit(a, g, limits, moves[n]);
    }
  }

  // --- The tool-call limit ---

  /** The tool calls that handlers have passed the check for and not committed yet. */
  function Reserved(pcs: seq<Pc>): nat {
    if pcs == [] then 0
    else Reserved(pcs[..|pcs| - 1]) + if pcs[|pcs| - 1].Cleared? then pcs[|pcs| - 1].n else 0
  }

  lemma {:induction false} ReservedUpdate(pcs: seq<Pc>, h: nat, pc: Pc)
    requires h < |pcs|
    ensures Reserved(pcs[h := pc]) ==
            Reserved(pcs) - (if pcs[h].Cleared? then pcs[h].n else 0) + (if pc.Cleared? then pc.n else 0)
  {
    var n := |pcs| - 1;
    if h == n {
      assert pcs[h := pc][..n] == pcs[..n];
    } else {
      ReservedUpdate(pcs[..n], h, pc);
      assert pcs[h := pc][..n] == pcs[..n][h := pc];
    }
  }

  predicate Booked(a: Agent, g: nat, limits: Limits) {
    limits.maxToolCalls > 0 ==> CountCalls(a.db.calls, g) + Reserved(a.pcs) <= limits.maxToolCalls
  }

  /** The check is made while no other handler is between its check and its commit. */
  predicate ChecksAlone(a: Agent, move: Move) {
    move.Check? ==> forall h :: 0 <= h < |a.pcs| ==> !a.pcs[h].Cleared?
  }

  predicate AllCheckAlone(g: nat, limits: Limits, moves: seq<Move>) {
    moves == [] ||
    (AllCheckAlone(g, limits, moves[..|moves| - 1]) &&
     ChecksAlone(Drive(Fresh(), g, limits, moves[..|moves| - 1]), moves[|moves| - 1]))
  }

  lemma {:induction false} NoneReserved(pcs: seq<Pc>)
    requires forall h :: 0 <= h < |pcs| ==> !pcs[h].Cleared?
    ensures Reserved(pcs) == 0
  {
    if pcs != [] {
      NoneReserved(pcs[..|pcs| - 1]);
    }
  }

  lemma OthersKeepCalls(db: Db, step: Step, g: nat)
    requires !HandlerStep(db, step, g)
    ensures CountCalls(Apply(db, step).calls, g) == CountCalls(db.calls, g)
  {
    match step
    case Life(s) => LifeKeepsCalls(db, s, g);
    case Turning(s) => OtherTurnKeepsCalls(db, s, g);
    case Calling(s) => CallKeepsCounts(db, s, g);
  }

  lemma LifeKeepsCalls(db: Db, s: LifeStep, g: nat)
    ensures CountCalls(ApplyLife(db, s).calls, g) == CountCalls(db.calls, g)
  {
    LifeFrame(db, s);
    CountSame(db.calls, ApplyLife(db, s).calls, g);
  }

  lemma CommitKeepsBooked(a: Agent, g: nat, limits: Limits, h: nat, requests: seq<Request>)
    requires Booked(a, g, limits)
    ensures Booked(Act(a, g, limits, CommitTools(h, requests)), g, limits)
  {
    if h < |a.pcs| && a.pcs[h].Cleared? && |requests| == a.pcs[h].n {
      ReservedUpdate(a.pcs, h, Resting);
      CommitAddsAtMost(a.db, g, a.pcs[h].t, requests);
    }
  }

  lemma CommitAddsAtMost(db: Db, g: nat, t: nat, requests: seq<Request>)
    ensures CountCalls(ApplyTurn(db, CompleteWithTools(t, g, g, requests)).calls, g) <=
            CountCalls(db.calls, g) + |requests|
  {
    CountInserted(db.calls, g, t, requests);
  }

  lemma CheckKeepsBooked(a: Agent, g: nat, limits: Limits, h: nat, n: nat)
    requires Booked(a, g, limits) && ChecksAlone(a, Check(h, n))
    ensures Booked(Act(a, g, limits, Check(h, n)), g, limits)
  {
    NoneReserved(a.pcs);
    if h < |a.pcs| && a.pcs[h].Asking? {
      ReservedUpdate(a.pcs, h, Resting);
      ReservedUpdate(a.pcs, h, Cleared(a.pcs[h].t, a.pcs[h].late, n));
      LifeKeepsCalls(a.db, FailAnalysis(g, g), g);
    }
  }

  /** A handler that moves on without reserving anything. */
  lemma UnreservedKeepsBooked(a: Agent, g: nat, limits: Limits, b: Agent, h: nat)
    requires Booked(a, g, limits) && h < |a.pcs| && |b.pcs| == |a.pcs|
    requires b.pcs == a.pcs[h := b.pcs[h]] && !b.pcs[h].Cleared? &&
             CountCalls(b.db.calls, g) == CountCalls(a.db.calls, g)
    ensures Booked(b, g, limits)
  {
    ReservedUpdate(a.pcs, h, b.pcs[h]);
  }

  lemma ActKeepsBooked(a: Agent, g: nat, limits: Limits, move: Move)
    requires Booked(a, g, limits) && ChecksAlone(a, move)
    ensures Booked(Act(a, g, limits, move), g, limits)
  {
    match move
    case Elsewhere(step) => if !HandlerStep(a.db, step, g) { OthersKeepCalls(a.db, step, g); }
    case Spawn => assert (a.pcs + [Resting])[..|a.pcs|] == a.pcs;
    case Check(h, n) => CheckKeepsBooked(a, g, limits, h, n);
    case CommitTools(h, requests) => CommitKeepsBooked(a, g, limits, h, requests);
    case Look(h, trigger) =>
      LifeKeepsCalls(a.db, FailAnalysis(g, g), g);
      if h < |a.pcs| && Act(a, g, limits, move).pcs != a.pcs {
        UnreservedKeepsBooked(a, g, limits, Act(a, g, limits, move), h);
      }
    case _ =>
      if move.h < |a.pcs| && Act(a, g, limits, move) != a {
        UnreservedKeepsBooked(a, g, limits, Act(a, g, limits, move), move.h);
      }
  }

  /** A positive `max_tool_calls` is never exceeded, retries included, in every run in which at most one
      handler at a time is between its check and its commit. */
  lemma {:induction false} LoneChecksKeepToolLimit(g: nat, limits: Limits, moves: seq<Move>)
    requires AllCheckAlone(g, limits, moves)
    ensures var a := Drive(Fresh(), g, limits, moves);
            Booked(a, g, limits) && (limits.maxToolCalls > 0 ==> CountCalls(a.db.calls, g) <= limits.maxToolCalls)
  {
    if moves != [] {
      var n := |moves| - 1;
      LoneChecksKeepToolLimit(g, limits, moves[..n]);
      ActKeepsBooked(Drive(Fresh(), g, limits, moves[..n]), g, limits, moves[n]);
    }
  }

  predicate OnlyCommits(moves: seq<Move>) {
    forall k :: 0 <= k < |moves| ==> moves[k].CommitTools?
  }

  lemma {:induction false} CommitsKeepBooked(a: Agent, g: nat, limits: Limits, moves: seq<Move>)
    requires Booked(a, g, limits) && OnlyCommits(moves)
    ensures Booked(Drive(a, g, limits, moves), g, limits)
  {
    if moves != [] {
      var n := |moves| - 1;
      CommitsKeepBooked(a, g, limits, moves[..n]);
      CommitKeepsBooked(Drive(a, g, limits, moves[..n]), g, limits, moves[n].h, moves[n].requests);
    }
  }

  // Requests whose call ids are longer than any stored one are inserted one row each.

  predicate ShorterThan(calls: seq<Call>, n: nat) {
    forall i :: 0 <= i < |calls| ==> |calls[i].externalId| < n
  }

  lemma {:induction false} SomeBound(calls: seq<Call>) returns (n: nat)
    ensures ShorterThan(calls, n)
  {
    if calls == [] {
      n := 0;
    } else {
      var last := calls[|calls| - 1];
      n := SomeBound(calls[..|calls| - 1]);
      n := if n <= |last.externalId| then |last.externalId| + 1 else n;
    }
  }

  /** The call ids have lengths n, n + 1, … */
  predicate LongIds(requests: seq<Request>, n: nat) {
    forall i :: 0 <= i < |requests| ==> |requests[i].externalId| == n + i
  }

  lemma {:induction false} SomeName(n: nat) returns (s: string)
    ensures |s| == n
  {
    s := "";
    if n > 0 {
      s := SomeName(n - 1);
      s := s + "x";
    }
  }

  lemma {:induction false} SomeRequests(n: nat, k: nat) returns (requests: seq<Request>)
    ensures |requests| == k && LongIds(requests, n)
  {
    requests := [];
    if k > 0 {
      requests := SomeRequests(n, k - 1);
      var name := SomeName(n + k - 1);
      requests := requests + [Request(name, None)];
    }
  }

  lemma NewRequestInserted(calls: seq<Call>, g: nat, t: nat, request: Request, n: nat)
    requires ShorterThan(calls, n) && |request.externalId| == n
    ensures InsertCall(calls, g, t, request) == calls + [NewCall(g, t, request)]
    ensures ShorterThan(InsertCall(calls, g, t, request), n + 1)
    ensures CountCalls(InsertCall(calls, g, t, request), g) == CountCalls(calls, g) + 1
  {
    assert (calls + [NewCall(g, t, request)])[..|calls|] == calls;
  }

  lemma {:induction false} NewRequestsInserted(calls: seq<Call>, g: nat, t: nat, n: nat, requests: seq<Request>)
    requires ShorterThan(calls, n) && LongIds(requests, n)
    ensures ShorterThan(InsertCalls(calls, g, t, requests), n + |requests|)
    ensures CountCalls(InsertCalls(calls, g, t, requests), g) == CountCalls(calls, g) + |requests|
  {
    if requests != [] {
      var k := |requests| - 1;
      NewRequestsInserted(calls, g, t, n, requests[..k]);
      NewRequestInserted(InsertCalls(calls, g, t, requests[..k]), g, t, requests[k], n + k);
    }
  }

  lemma CommitEffect(a: Agent, g: nat, limits: Limits, h: nat, requests: seq<Request>)
    requires Continuable(a.db, g, g) && h < |a.pcs| && a.pcs[h].Cleared? && |requests| == a.pcs[h].n
    ensures var next := Act(a, g, limits, CommitTools(h, requests));
            Continuable(next.db, g, g) && next.pcs == a.pcs[h := Resting] &&
            next.db.calls == InsertCalls(a.db.calls, g, a.pcs[h].t, requests)
  {
  }

  /** A cleared handler commits as many new calls as it has reserved. */
  lemma CommitReserved(a: Agent, g: nat, limits: Limits, h: nat) returns (commit: Move)
    requires Continuable(a.db, g, g) && h < |a.pcs| && a.pcs[h].Cleared?
    ensures commit.CommitTools?
    ensures var next := Act(a, g, limits, commit);
            Continuable(next.db, g, g) && next.pcs == a.pcs[h := Resting] &&
            CountCalls(next.db.calls, g) == CountCalls(a.db.calls, g) + a.pcs[h].n
  {
    var n := SomeBound(a.db.calls);
    var requests := SomeRequests(n, a.pcs[h].n);
    commit := CommitTools(h, requests);
    NewRequestsInserted(a.db.calls, g, a.pcs[h].t, n, requests);
    CommitEffect(a, g, limits, h, requests);
  }

  lemma {:induction false} DriveThen(a: Agent, g: nat, limits: Limits, first: Move, rest: seq<Move>)
    ensures Drive(a, g, limits, [first] + rest) == Drive(Act(a, g, limits, first), g, limits, rest)
  {
    var all := [first] + rest;
    if rest == [] {
      assert all[..0] == [];
    } else {
      DriveThen(a, g, limits, first, rest[..|rest| - 1]);
      assert all[..|all| - 1] == [first] + rest[..|rest| - 1];
    }
  }

  /** The first `k` handlers commit what they have reserved. */
  lemma {:induction false} CommitAll(a: Agent, g: nat, limits: Limits, k: nat) returns (moves: seq<Move>)
    requires Continuable(a.db, g, g) && k <= |a.pcs|
    ensures OnlyCommits(moves)
    ensures CountCalls(Drive(a, g, limits, moves).db.calls, g) == CountCalls(a.db.calls, g) + Reserved(a.pcs[..k])
    decreases k
  {
    moves := [];
    if k > 0 {
      assert a.pcs[..k][..k - 1] == a.pcs[..k - 1];
      if a.pcs[k - 1].Cleared? {
        var commit := CommitReserved(a, g, limits, k - 1);
        var next := Act(a, g, limits, commit);
        assert next.pcs[..k - 1] == a.pcs[..k - 1];
        var rest := CommitAll(next, g, limits, k - 1);
        DriveThen(a, g, limits, commit, rest);
        moves := [commit] + rest;
      } else {
        moves := CommitAll(a, g, limits, k - 1);
      }
    }
  }

  predicate LimitKeptBy(a: Agent, g: nat, limits: Limits, moves: seq<Move>) {
    CountCalls(Drive(a, g, limits, moves).db.calls, g) <= limits.maxToolCalls
  }

  /** However the handlers that passed their check go on to commit, the limit is kept if and only if
      the stored calls and the reserved ones together are within it. */
  lemma ToolLimitKeptIff(a: Agent, g: nat, limits: Limits)
    requires Continuable(a.db, g, g) && limits.maxToolCalls > 0
    ensures (forall moves :: OnlyCommits(moves) ==> LimitKeptBy(a, g, limits, moves)) <==>
            CountCalls(a.db.calls, g) + Reserved(a.pcs) <= limits.maxToolCalls
  {
    if Booked(a, g, limits) {
      forall moves | OnlyCommits(moves)
        ensures LimitKeptBy(a, g, limits, moves)
      {
        CommitsKeepBooked(a, g, limits, moves);
      }
    } else {
      var moves := CommitAll(a, g, limits, |a.pcs|);
      assert a.pcs[..|a.pcs|] == a.pcs;
      assert !LimitKeptBy(a, g, limits, moves);
    }
  }

  // --- The turn limit ---

  /** Events of the agent are taken up one at a time. */
  predicate OneAtATime(a: Agent, move: Move) {
    move.Look? || move.Resume? ==> forall h :: 0 <= h < |a.pcs| ==> a.pcs[h].Resting?
  }

  /** `late` tells whether the count is at the limit; a new turn is only started below it. */
  predicate LateFits(pc: Pc, count: nat, limits: Limits) {
    (pc.Looked? ==> count < limits.maxTurns) && (Held(pc) ==> (pc.late <==> count >= limits.maxTurns))
  }

  predicate SerialInv(a: Agent, g: nat, limits: Limits) {
    (forall h, k :: 0 <= h < k < |a.pcs| ==> a.pcs[h].Resting? || a.pcs[k].Resting?) &&
    (forall h :: 0 <= h < |a.pcs| ==> LateFits(a.pcs[h], TurnCount(a.db, g), limits))
  }

  predicate LateCommit(a: Agent, g: nat, move: Move) {
    Commits(a, g, move) && a.pcs[move.h].late
  }

  lemma OtherTurnKeepsTurnCount(db: Db, s: TurnStep, g: nat)
    requires !HandlerStep(db, Turning(s), g)
    ensures TurnCount(ApplyTurn(db, s), g) == TurnCount(db, g)
  {
  }

  lemma LifeKeepsTurnCount(db: Db, s: LifeStep, g: nat)
    requires Linked(db)
    ensures TurnCount(ApplyLife(db, s), g) == TurnCount(db, g)
  {
  }

  lemma ElsewhereKeepsTurnCount(db: Db, step: Step, g: nat)
    requires Linked(db) && !HandlerStep(db, step, g)
    ensures TurnCount(Apply(db, step), g) == TurnCount(db, g)
  {
    match step
    case Life(s) => LifeKeepsTurnCount(db, s, g);
    case Turning(s) => OtherTurnKeepsTurnCount(db, s, g);
    case Calling(s) => CallFrame(db, s);
  }

  lemma TurnCountMoves(a: Agent, g: nat, limits: Limits, move: Move)
    requires AgentInv(a, g)
    ensures TurnCount(Act(a, g, limits, move).db, g) == TurnCount(a.db, g) + if Commits(a, g, move) then 1 else 0
  {
    match move
    case Elsewhere(step) => if !HandlerStep(a.db, step, g) { ElsewhereKeepsTurnCount(a.db, step, g); }
    case Look(h, trigger) => FailingKeepsInv(a, g);
    case Check(h, n) => FailingKeepsInv(a, g);
    case CommitTools(h, requests) => if h < |a.pcs| && a.pcs[h].Cleared? { CommitKeepsInv(a, g, h, requests); }
    case CommitAnswer(h) => if h < |a.pcs| && a.pcs[h].Asking? { AnswerKeepsInv(a, g, h); }
    case _ =>
  }

  lemma ActKeepsSerialInv(a: Agent, g: nat, limits: Limits, move: Move)
    requires AgentInv(a, g) && SerialInv(a, g, limits) && OneAtATime(a, move)
    ensures SerialInv(Act(a, g, limits, move), g, limits)
  {
    TurnCountMoves(a, g, limits, move);
  }

  /** A late turn is one that was resumed when the count had reached the limit, never a new one. */
  lemma LateComesFromResume(a: Agent, g: nat, limits: Limits, move: Move, h: nat)
    requires SerialInv(a, g, limits) && h < |a.pcs| && !Held(a.pcs[h])
    ensures h < |Act(a, g, limits, move).pcs|
    ensures var pc := Act(a, g, limits, move).pcs[h];
            Held(pc) && pc.late <==>
              move.Resume? && move.h == h && Resumable(a, g, h, move.trigger) && TurnCount(a.db, g) >= limits.maxTurns
  {
  }

  predicate Disciplined(g: nat, limits: Limits, moves: seq<Move>) {
    moves == [] ||
    (Disciplined(g, limits, moves[..|moves| - 1]) &&
     var a := Drive(Fresh(), g, limits, moves[..|moves| - 1]);
     Claimed(a, moves[|moves| - 1]) && OneAtATime(a, moves[|moves| - 1]))
  }

  lemma {:induction false} RunKeepsSerialInv(g: nat, limits: Limits, moves: seq<Move>)
    requires Disciplined(g, limits, moves)
    ensures AgentInv(Drive(Fresh(), g, limits, moves), g) && SerialInv(Drive(Fresh(), g, limits, moves), g, limits)
  {
    if moves != [] {
      var n := |moves| - 1;
      RunKeepsSerialInv(g, limits, moves[..n]);
      ActKeepsInv(Drive(Fresh(), g, limits, moves[..n]), g, limits, moves[n]);
      ActKeepsSerialInv(Drive(Fresh(), g, limits, moves[..n]), g, limits, moves[n]);
    }
  }

  /** The count is within the limit after every move of the run. */
  predicate AlwaysWithin(g: nat, limits: Limits, moves: seq<Move>) {
    TurnCount(Drive(Fresh(), g, limits, moves).db, g) <= limits.maxTurns &&
    (moves == [] || AlwaysWithin(g, limits, moves[..|moves| - 1]))
  }

  /** No move of the run commits a late turn. */
  predicate NeverLate(g: nat, limits: Limits, moves: seq<Move>) {
    moves == [] ||
    (NeverLate(g, limits, moves[..|moves| - 1]) &&
     !LateCommit(Drive(Fresh(), g, limits, moves[..|moves| - 1]), g, moves[|moves| - 1]))
  }

  /** One move exceeds the limit exactly if it commits a late turn. */
  lemma LimitStep(a: Agent, g: nat, limits: Limits, move: Move)
    requires AgentInv(a, g) && SerialInv(a, g, limits) && TurnCount(a.db, g) <= limits.maxTurns
    ensures TurnCount(Act(a, g, limits, move).db, g) <= limits.maxTurns <==> !LateCommit(a, g, move)
  {
    TurnCountMoves(a, g, limits, move);
  }

  /** `max_turns` is tested when a turn is started and not when it is resumed.  Over a whole run with one
      event of the agent handled at a time, the count stays within the limit if and only if no turn is
      committed that was resumed with the count at the limit. */
  lemma {:induction false} TurnLimitKeptIff(g: nat, limits: Limits, moves: seq<Move>)
    requires Disciplined(g, limits, moves)
    ensures AlwaysWithin(g, limits, moves) <==> NeverLate(g, limits, moves)
  {
    if moves != [] {
      var n := |moves| - 1;
      TurnLimitKeptIff(g, limits, moves[..n]);
      if AlwaysWithin(g, limits, moves[..n]) {
        RunKeepsSerialInv(g, limits, moves[..n]);
        LimitStep(Drive(Fresh(), g, limits, moves[..n]), g, limits, moves[n]);
      }
    }
  }
}
