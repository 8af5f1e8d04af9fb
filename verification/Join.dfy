/** The join over a turn's tool calls.  Every call ends in its own transaction, which also writes the
    event that wakes the agent; the agent continues the turn from whichever event finds all calls
    ended.  No wake-up is lost, and a list that was ready once never changes. */
module Join {
  import opened Wrappers
  import opened Platform
  import opened Agreement
  import opened Endings
  import opened Fencing

  datatype Output = Output(call: nat, text: string)

  predicate NoOpenCall(calls: seq<Call>, t: nat) {
    forall i :: 0 <= i < |calls| && calls[i].turn == t ==> !OpenCall(calls[i].status)
  }

  function TextOf(call: Call): string {
    if call.result.Some? && call.result.value != "" then call.result.value else "{}"
  }

  /** The answered calls of turn `t` in creation order. */
  function Outputs(calls: seq<Call>, t: nat): seq<Output> {
    if calls == [] then []
    else
      var n := |calls| - 1;
      Outputs(calls[..n], t) +
      if calls[n].turn == t && AnsweredCall(calls[n].status) then [Output(n, TextOf(calls[n]))] else []
  }

  function CallsOf(calls: seq<Call>, t: nat): seq<nat> {
    if calls == [] then []
    else var n := |calls| - 1; CallsOf(calls[..n], t) + if calls[n].turn == t then [n] else []
  }

  /** `load_ready_tool_outputs_for_turn`. */
  function ReadyOutputs(db: Db, t: nat): Option<seq<Output>> {
    if NoOpenCall(db.calls, t) then Some(Outputs(db.calls, t)) else None
  }

  function Ids(outputs: seq<Output>): (r: seq<nat>)
    ensures |r| == |outputs| && forall i :: 0 <= i < |r| ==> r[i] == outputs[i].call
  {
    seq(|outputs|, i requires 0 <= i < |outputs| => outputs[i].call)
  }

  lemma {:induction false} AllAnswered(calls: seq<Call>, t: nat)
    requires forall i :: 0 <= i < |calls| && calls[i].turn == t ==> AnsweredCall(calls[i].status)
    ensures Ids(Outputs(calls, t)) == CallsOf(calls, t)
  {
    if calls != [] {
      AllAnswered(calls[..|calls| - 1], t);
    }
  }

  /** The rows of turn `t` are the same in both tables. */
  predicate SameTurn(before: seq<Call>, after: seq<Call>, t: nat) {
    |before| <= |after| &&
    (forall i :: 0 <= i < |before| ==> after[i].turn == before[i].turn) &&
    (forall i :: 0 <= i < |before| && before[i].turn == t ==> after[i] == before[i]) &&
    (forall i :: |before| <= i < |after| ==> after[i].turn != t)
  }

  lemma {:induction false} SameOutputs(before: seq<Call>, after: seq<Call>, t: nat)
    requires SameTurn(before, after, t)
    ensures Outputs(after, t) == Outputs(before, t)
  {
    if after != [] {
      var n := |after| - 1;
      if |before| == |after| {
        SameOutputs(before[..n], after[..n], t);
      } else {
        SameOutputs(before, after[..n], t);
      }
    }
  }

  // --- Unique index on (agent_id, openai_call_id) ---

  predicate UniqueCalls(calls: seq<Call>) {
    forall i, j :: 0 <= i < j < |calls| ==> !IsCallOf(calls[j], calls[i].agent, calls[i].externalId)
  }

  lemma FindIsUnique(calls: seq<Call>, c: nat)
    requires UniqueCalls(calls) && c < |calls|
    ensures FindCall(calls, calls[c].agent, calls[c].externalId) == Some(c)
  {
  }

  lemma {:induction false} InsertKeepsUnique(calls: seq<Call>, g: nat, t: nat, requests: seq<Request>)
    requires UniqueCalls(calls)
    ensures UniqueCalls(InsertCalls(calls, g, t, requests))
  {
    if requests != [] {
      InsertKeepsUnique(calls, g, t, requests[..|requests| - 1]);
    }
  }

  /** A row inserted as already completed comes from a request whose event announces that row. */
  lemma {:induction false} InsertedFromRequest(calls: seq<Call>, g: nat, t: nat, requests: seq<Request>, c: nat)
      returns (k: nat)
    requires |calls| <= c < |InsertCalls(calls, g, t, requests)|
    ensures k < |requests| && InsertCalls(calls, g, t, requests)[c] == NewCall(g, t, requests[k])
  {
    var n := |requests| - 1;
    if c < |InsertCalls(calls, g, t, requests[..n])| {
      k := InsertedFromRequest(calls, g, t, requests[..n], c);
    } else {
      k := n;
    }
  }

  lemma CompletedInsertIsAnnounced(calls: seq<Call>, g: nat, t: nat, requests: seq<Request>, c: nat) returns (k: nat)
    requires UniqueCalls(calls)
    requires |calls| <= c < |InsertCalls(calls, g, t, requests)|
    requires !OpenCall(InsertCalls(calls, g, t, requests)[c].status)
    ensures AnsweredCall(InsertCalls(calls, g, t, requests)[c].status)
    ensures k < |requests| && RequestEvents(InsertCalls(calls, g, t, requests), g, requests)[k] == ToolEnded(c)
  {
    k := InsertedFromRequest(calls, g, t, requests, c);
    InsertKeepsUnique(calls, g, t, requests);
    FindIsUnique(InsertCalls(calls, g, t, requests), c);
  }

  // --- The agent side ---

  /** Where the handling of one ended event stands between two of its transactions; `i` is the event's
      position in the outbox. */
  datatype Pc =
    | Free
    | Taken(i: nat)
    | SessionSeen(i: nat)
    | TurnSeen(i: nat)
    | LimitsSeen(i: nat)
    | OverLimit(i: nat)
    | OutputSeen(i: nat)
    | NoneOpenSeen(i: nat)
    | ListRead(i: nat)

  /** `unread`: positions of ended events whose handling has not come to an end; `lists`: for each turn
      the last ready list some handler read; `triggered`: calls for which a continuation turn row exists. */
  datatype World = World(db: Db, unread: set<nat>, lists: map<nat, seq<Output>>, triggered: set<nat>, handlers: seq<Pc>)

  /** Any number of handlers.  `over` says that the turn or tool-call limit was reached.  A handler that
      dies leaves its event to be delivered again, and any event may be delivered again at any time. */
  datatype JoinStep =
    | Tx(step: Step)
    | Spawn
    | Deliver(i: nat)
    | Take(h: nat, i: nat)
    | SeeSession(h: nat)
    | SeeTurn(h: nat)
    | SeeLimits(h: nat, over: bool)
    | FailOver(h: nat)
    | SeeOutput(h: nat)
    | SeeOpen(h: nat)
    | ReadList(h: nat)
    | StartNext(h: nat)
    | Die(h: nat)

  /** The positions of the ended events that a transaction appends. */
  function NewlyEnded(before: Db, after: Db): set<nat> {
    set i | |before.outbox| <= i < |after.outbox| && after.outbox[i].ToolEnded? :: i
  }

  predicate IsEndedEvent(db: Db, i: nat) {
    i < |db.outbox| && db.outbox[i].ToolEnded? && db.outbox[i].call < |db.calls|
  }

  function CallAt(db: Db, i: nat): nat
    requires IsEndedEvent(db, i)
  {
    db.outbox[i].call
  }

  predicate At(w: World, h: nat) {
    h < |w.handlers| && !w.handlers[h].Free? && IsEndedEvent(w.db, w.handlers[h].i)
  }

  function Move(w: World, h: nat, pc: Pc): World
    requires h < |w.handlers|
  {
    w.(handlers := w.handlers[h := pc])
  }

  /** The handler is through with its event. */
  function Drop(w: World, h: nat): World
    requires At(w, h)
  {
    Move(w, h, Free).(unread := w.unread - {w.handlers[h].i})
  }

  function Advance(w: World, s: JoinStep): World {
    match s
    case Tx(step) => w.(db := Apply(w.db, step), unread := w.unread + NewlyEnded(w.db, Apply(w.db, step)))
    case Spawn => w.(handlers := w.handlers + [Free])
    case Deliver(i) => if IsEndedEvent(w.db, i) then w.(unread := w.unread + {i}) else w
    case Take(h, i) =>
      if h < |w.handlers| && w.handlers[h].Free? && i in w.unread && IsEndedEvent(w.db, i)
      then Move(w, h, Taken(i)) else w
    case Die(h) => if h < |w.handlers| then Move(w, h, Free) else w
    case _ => if At(w, s.h) then Handled(w, s) else w
  }

  /** One transaction of a handler. */
  function Handled(w: World, s: JoinStep): World
    requires !s.Tx? && !s.Spawn? && !s.Deliver? && At(w, s.h)
  {
    var pc := w.handlers[s.h];
    var c := CallAt(w.db, pc.i);
    var call := w.db.calls[c];
    match s
    case SeeSession(h) =>
      if !pc.Taken? then w else if SessionIsLive(w.db, call.agent) then Move(w, h, SessionSeen(pc.i)) else Drop(w, h)
    case SeeTurn(h) =>
      if !pc.SessionSeen? then w else if c in w.triggered then Drop(w, h) else Move(w, h, TurnSeen(pc.i))
    case SeeLimits(h, over) =>
      if !pc.TurnSeen? then w else Move(w, h, if over then OverLimit(pc.i) else LimitsSeen(pc.i))
    case FailOver(h) =>
      if !pc.OverLimit? then w else Drop(w, h).(db := ApplyLife(w.db, FailAnalysis(call.agent, call.agent)))
    case SeeOutput(h) =>
      if !pc.LimitsSeen? then w else if AnsweredCall(call.status) then Move(w, h, OutputSeen(pc.i)) else Drop(w, h)
    case SeeOpen(h) =>
      if !pc.OutputSeen? then w
      else if NoOpenCall(w.db.calls, call.turn) then Move(w, h, NoneOpenSeen(pc.i)) else Drop(w, h)
    case ReadList(h) =>
      if !pc.NoneOpenSeen? then w
      else Move(w, h, ListRead(pc.i)).(lists := w.lists[call.turn := Outputs(w.db.calls, call.turn)])
    case StartNext(h) => if !pc.ListRead? then w else Drop(w, h).(triggered := w.triggered + {c})
    case _ => w
  }

  function RunJoin(w: World, steps: seq<JoinStep>): World {
    if steps == [] then w else Advance(RunJoin(w, steps[..|steps| - 1]), steps[|steps| - 1])
  }

  function Start(): World {
    World(Initial(), {}, map[], {}, [])
  }

  /** A cancel event that names an agent names that of its own analysis. */
  predicate CancelsOwnAgent(step: Step) {
    step.Life? && step.life.HandleCancelRequested? && step.life.agent.Some? ==> step.life.agent.value == step.life.a
  }

  predicate TxFits(step: Step) {
    Addressed(step) && NamesHolder(step) && CancelsOwnAgent(step)
  }

  predicate AllWellBehaved(steps: seq<JoinStep>) {
    forall i :: 0 <= i < |steps| && steps[i].Tx? ==> TxFits(steps[i].step)
  }

  // --- The invariant ---

  predicate AnsweredIn(calls: seq<Call>, t: nat, d: nat) {
    d < |calls| && calls[d].turn == t && AnsweredCall(calls[d].status)
  }

  /** Some ready list that was read names the call. */
  predicate Listed(w: World, c: nat) {
    c < |w.db.calls| && w.db.calls[c].turn in w.lists && c in Ids(w.lists[w.db.calls[c].turn])
  }

  /** An open event of an answered call of the turn. */
  predicate Wakes(w: World, t: nat, i: nat) {
    i in w.unread && IsEndedEvent(w.db, i) && AnsweredIn(w.db.calls, t, CallAt(w.db, i))
  }

  /** An open event will have somebody read the list with its call in it. */
  predicate ListPending(w: World, t: nat) {
    exists i :: i in w.unread && Wakes(w, t, i) && !Listed(w, CallAt(w.db, i))
  }

  /** An open event will have somebody start a continuation turn. */
  predicate StartPending(w: World, t: nat) {
    exists i :: i in w.unread && Wakes(w, t, i) && CallAt(w.db, i) !in w.triggered
  }

  predicate WasRead(w: World, t: nat) {
    t in w.lists && w.lists[t] == Outputs(w.db.calls, t)
  }

  /** A continuation turn was started for a call of the turn. */
  predicate WasStarted(w: World, t: nat) {
    exists c :: c in w.triggered && c < |w.db.calls| && w.db.calls[c].turn == t
  }

  predicate HasEnded(w: World, t: nat) {
    exists d :: 0 <= d < |w.db.calls| && w.db.calls[d].turn == t && !SessionIsLive(w.db, w.db.calls[d].agent)
  }

  predicate HasAnswer(calls: seq<Call>, t: nat) {
    exists d :: 0 <= d < |calls| && AnsweredIn(calls, t, d)
  }

  predicate TurnWoken(w: World, t: nat) {
    HasAnswer(w.db.calls, t) && NoOpenCall(w.db.calls, t) ==>
      HasEnded(w, t) || ((ListPending(w, t) || WasRead(w, t)) && (StartPending(w, t) || WasStarted(w, t)))
  }

  predicate CallsHaveSessions(db: Db) {
    forall c :: 0 <= c < |db.calls| ==> db.calls[c].agent < |db.sessions|
  }

  predicate TablesFit(db: Db) {
    RowsAgree(db) && OwnersFit(db) && UniqueCalls(db.calls) && CallsHaveSessions(db)
  }

  /** A handler past the look at its call's output has seen it answered, and past the list has it listed. */
  predicate PcFits(w: World, pc: Pc) {
    (pc.OutputSeen? || pc.NoneOpenSeen? || pc.ListRead? ==>
      IsEndedEvent(w.db, pc.i) && AnsweredCall(w.db.calls[CallAt(w.db, pc.i)].status)) &&
    (pc.ListRead? ==> Listed(w, CallAt(w.db, pc.i)))
  }

  /** Lists name answered calls of their turn only. */
  predicate ListsFit(calls: seq<Call>, lists: map<nat, seq<Output>>) {
    forall t :: t in lists ==> forall k :: 0 <= k < |lists[t]| ==> AnsweredIn(calls, t, lists[t][k].call)
  }

  predicate ReadersFit(w: World) {
    ListsFit(w.db.calls, w.lists) && (forall c :: c in w.triggered ==> Listed(w, c)) &&
    (forall h :: 0 <= h < |w.handlers| ==> PcFits(w, w.handlers[h]))
  }

  ghost predicate JoinInv(w: World) {
    TablesFit(w.db) && ReadersFit(w) && forall t :: TurnWoken(w, t)
  }

  /** Rows keep the columns of the index. */
  predicate SameKeys(before: seq<Call>, after: seq<Call>) {
    |before| == |after| &&
    forall i :: 0 <= i < |before| ==>
      after[i].agent == before[i].agent && after[i].externalId == before[i].externalId
  }

  lemma SameKeysKeepUnique(before: seq<Call>, after: seq<Call>)
    requires UniqueCalls(before) && SameKeys(before, after)
    ensures UniqueCalls(after)
  {
    forall i, j | 0 <= i < j < |after|
      ensures !IsCallOf(after[j], after[i].agent, after[i].externalId)
    {
      assert !IsCallOf(before[j], before[i].agent, before[i].externalId);
    }
  }

  lemma LifeKeepsKeys(db: Db, s: LifeStep)
    ensures SameKeys(db.calls, ApplyLife(db, s).calls)
  {
  }

  lemma CallKeepsKeys(db: Db, s: CallStep)
    ensures SameKeys(db.calls, ApplyCall(db, s).calls)
  {
  }

  lemma StepKeepsUnique(db: Db, step: Step)
    requires UniqueCalls(db.calls)
    ensures UniqueCalls(Apply(db, step).calls)
  {
    match step
    case Life(s) =>
      LifeKeepsKeys(db, s);
      SameKeysKeepUnique(db.calls, ApplyLife(db, s).calls);
    case Turning(s) =>
      TurnFrame(db, s);
      if s.CompleteWithTools? {
        InsertKeepsUnique(db.calls, s.g, s.t, s.requests);
      }
    case Calling(s) =>
      CallKeepsKeys(db, s);
      SameKeysKeepUnique(db.calls, ApplyCall(db, s).calls);
  }

  lemma StepKeepsCallsHaveSessions(db: Db, step: Step)
    requires CallsHaveSessions(db)
    ensures CallsHaveSessions(Apply(db, step))
  {
    if step.Turning? && step.turn.CompleteWithTools? {
      InsertedCallsBelong(db.calls, step.turn.g, step.turn.t, step.turn.requests);
    }
  }

  lemma StepKeepsTablesFit(db: Db, step: Step)
    requires TablesFit(db) && TxFits(step)
    ensures TablesFit(Apply(db, step))
  {
    StepKeepsAgreement(db, step);
    StepKeepsOwners(db, step);
    StepKeepsUnique(db, step);
    StepKeepsCallsHaveSessions(db, step);
  }

  /** How one transaction can change call row `c`. */
  predicate RowMove(db: Db, after: Db, c: nat)
    requires c < |db.calls|
  {
    c < |after.calls| && after.calls[c].turn == db.calls[c].turn && after.calls[c].agent == db.calls[c].agent &&
    (EndedCallAt(db, c) ==> after.calls[c] == db.calls[c]) &&
    (OpenCall(db.calls[c].status) && AnsweredCall(after.calls[c].status) ==>
      after.outbox == db.outbox + [ToolEnded(c)]) &&
    (OpenCall(db.calls[c].status) && after.calls[c].status.CallCancelled? ==> !SessionIsLive(after, db.calls[c].agent))
  }

  lemma LifeRowChange(db: Db, s: LifeStep, c: nat)
    requires RowsAgree(db) && TxFits(Life(s)) && c < |db.calls|
    ensures RowMove(db, ApplyLife(db, s), c)
  {
    var g := db.calls[c].agent;
    if g < |db.sessions| {
      assert db.sessions[g].analysis == g && Agrees(db.analyses[g], db.sessions[g].status);
    }
  }

  lemma CallRowChange(db: Db, s: CallStep, c: nat)
    requires RowsAgree(db) && OwnersFit(db) && TxFits(Calling(s)) && c < |db.calls|
    ensures RowMove(db, ApplyCall(db, s), c)
  {
    assert OwnerFits(db.calls[c], db.issued);
    var g := db.calls[c].agent;
    if g < |db.sessions| {
      assert Agrees(db.analyses[g], db.sessions[g].status);
    }
  }

  lemma RowChange(db: Db, step: Step, c: nat)
    requires RowsAgree(db) && OwnersFit(db) && TxFits(step) && c < |db.calls|
    ensures RowMove(db, Apply(db, step), c)
  {
    match step
    case Life(s) => LifeRowChange(db, s, c);
    case Turning(s) => TurnFrame(db, s);
    case Calling(s) => CallRowChange(db, s, c);
  }

  /** Rows are added by committing a turn only. */
  lemma RowsComeFromCommits(db: Db, step: Step)
    ensures |Apply(db, step).calls| >= |db.calls|
    ensures |Apply(db, step).calls| > |db.calls| ==>
              step.Turning? && step.turn.CompleteWithTools? &&
              Apply(db, step).calls == InsertCalls(db.calls, step.turn.g, step.turn.t, step.turn.requests) &&
              Apply(db, step).outbox ==
                db.outbox + RequestEvents(Apply(db, step).calls, step.turn.g, step.turn.requests)
  {
    match step
    case Life(s) => LifeFrame(db, s);
    case Turning(s) => TurnFrame(db, s);
    case Calling(s) => CallFrame(db, s);
  }

  lemma SessionsStayEnded(db: Db, step: Step, g: nat)
    requires g < |db.sessions| && !SessionIsLive(db, g)
    ensures !SessionIsLive(Apply(db, step), g)
  {
  }

  lemma StepAppends(db: Db, step: Step)
    ensures db.outbox <= Apply(db, step).outbox
  {
  }

  /** The rows a transaction adds are open, or their ended event is appended with them. */
  lemma NewRow(db: Db, step: Step, c: nat) returns (i: nat)
    requires UniqueCalls(db.calls)
    requires |db.calls| <= c < |Apply(db, step).calls| && !OpenCall(Apply(db, step).calls[c].status)
    ensures var after := Apply(db, step);
            AnsweredCall(after.calls[c].status) && |db.outbox| <= i < |after.outbox| && after.outbox[i] == ToolEnded(c)
  {
    RowsComeFromCommits(db, step);
    var k := CompletedInsertIsAnnounced(db.calls, step.turn.g, step.turn.t, step.turn.requests, c);
    i := |db.outbox| + k;
  }

  lemma {:induction false} OutputsExactly(calls: seq<Call>, t: nat, c: nat)
    ensures c in Ids(Outputs(calls, t)) <==> AnsweredIn(calls, t, c)
  {
    if calls != [] {
      var n := |calls| - 1;
      OutputsExactly(calls[..n], t, c);
      var before, all := Outputs(calls[..n], t), Outputs(calls, t);
      if AnsweredIn(calls, t, n) {
        assert Ids(all) == Ids(before) + [n];
      } else {
        assert all == before;
      }
    }
  }

  /** A listed call is answered, so one that is not answered yet is not listed. */
  lemma ListedIsAnswered(w: World, c: nat)
    requires ListsFit(w.db.calls, w.lists) && Listed(w, c)
    ensures AnsweredCall(w.db.calls[c].status)
  {
    var t := w.db.calls[c].turn;
    var k :| 0 <= k < |Ids(w.lists[t])| && Ids(w.lists[t])[k] == c;
    assert AnsweredIn(w.db.calls, t, w.lists[t][k].call);
  }

  /** The event of a call that was open before has everything still to do. */
  lemma NewEventWakes(w: World, v: World, t: nat, d: nat, i: nat)
    requires ReadersFit(w) && v.lists == w.lists && v.triggered == w.triggered
    requires d >= |w.db.calls| || !AnsweredCall(w.db.calls[d].status)
    requires forall c :: 0 <= c < |w.db.calls| ==> c < |v.db.calls| && v.db.calls[c].turn == w.db.calls[c].turn
    requires Wakes(v, t, i) && CallAt(v.db, i) == d
    ensures ListPending(v, t) && StartPending(v, t)
  {
    assert i in v.unread && !Listed(v, d) && d !in v.triggered;
  }

  /** Tables and lists of the turn are as before, and every event that could wake it still can. */
  ghost predicate KeepsTurn(w: World, v: World, t: nat) {
    (forall i :: i in w.unread && Wakes(w, t, i) ==> Wakes(v, t, i) && CallAt(v.db, i) == CallAt(w.db, i)) &&
    (forall c :: AnsweredIn(w.db.calls, t, c) ==>
      (Listed(v, c) <==> Listed(w, c)) && (c in v.triggered <==> c in w.triggered)) &&
    (WasRead(w, t) ==> WasRead(v, t)) && (WasStarted(w, t) ==> WasStarted(v, t)) && (HasEnded(w, t) ==> HasEnded(v, t))
  }

  lemma KeptTurnStaysWoken(w: World, v: World, t: nat)
    requires KeepsTurn(w, v, t) && TurnWoken(w, t) && HasAnswer(w.db.calls, t) && NoOpenCall(w.db.calls, t)
    ensures TurnWoken(v, t)
  {
    if !HasEnded(w, t) {
      if ListPending(w, t) {
        var i :| i in w.unread && Wakes(w, t, i) && !Listed(w, CallAt(w.db, i));
        assert i in v.unread && Wakes(v, t, i) && !Listed(v, CallAt(v.db, i));
      }
      if StartPending(w, t) {
        var i :| i in w.unread && Wakes(w, t, i) && CallAt(w.db, i) !in w.triggered;
        assert i in v.unread && Wakes(v, t, i) && CallAt(v.db, i) !in v.triggered;
      }
    }
  }

  /** Lists, triggers and the rows of the turn are the same, and no event that wakes it was let go. */
  predicate SameForTurn(w: World, v: World, t: nat) {
    v.lists == w.lists && v.triggered == w.triggered && w.db.outbox <= v.db.outbox &&
    (forall i :: i in w.unread && Wakes(w, t, i) ==> i in v.unread) && SameTurn(w.db.calls, v.db.calls, t)
  }

  lemma SameForTurnKeepsTurn(w: World, v: World, t: nat)
    requires SameForTurn(w, v, t) && (HasEnded(w, t) ==> HasEnded(v, t))
    ensures KeepsTurn(w, v, t)
  {
    SameOutputs(w.db.calls, v.db.calls, t);
    if WasStarted(w, t) {
      var c :| c in w.triggered && c < |w.db.calls| && w.db.calls[c].turn == t;
      assert v.db.calls[c].turn == t;
    }
  }

  lemma TxKeepsEnded(w: World, step: Step, t: nat)
    requires CallsHaveSessions(w.db) && HasEnded(w, t) && SameTurn(w.db.calls, Apply(w.db, step).calls, t)
    ensures HasEnded(Advance(w, Tx(step)), t)
  {
    var e :| 0 <= e < |w.db.calls| && w.db.calls[e].turn == t && !SessionIsLive(w.db, w.db.calls[e].agent);
    SessionsStayEnded(w.db, step, w.db.calls[e].agent);
    assert Apply(w.db, step).calls[e] == w.db.calls[e];
  }

  /** The ended rows of a turn stay as they are, so what woke it still does. */
  lemma OldTurnStaysWoken(w: World, step: Step, t: nat)
    requires JoinInv(w) && TxFits(step)
    requires NoOpenCall(w.db.calls, t) && HasAnswer(Apply(w.db, step).calls, t)
    requires SameTurn(w.db.calls, Apply(w.db, step).calls, t)
    ensures TurnWoken(Advance(w, Tx(step)), t)
  {
    StepAppends(w.db, step);
    if HasEnded(w, t) {
      TxKeepsEnded(w, step, t);
    } else {
      var d :| 0 <= d < |Apply(w.db, step).calls| && AnsweredIn(Apply(w.db, step).calls, t, d);
      assert AnsweredIn(w.db.calls, t, d) && TurnWoken(w, t);
      SameForTurnKeepsTurn(w, Advance(w, Tx(step)), t);
      KeptTurnStaysWoken(w, Advance(w, Tx(step)), t);
    }
  }

  /** A call that ends now brings its own event. */
  lemma EndedNowWakes(w: World, step: Step, t: nat, d: nat)
    requires JoinInv(w) && TxFits(step)
    requires d < |w.db.calls| && w.db.calls[d].turn == t && OpenCall(w.db.calls[d].status)
    requires NoOpenCall(Apply(w.db, step).calls, t)
    requires forall c :: 0 <= c < |w.db.calls| ==>
               c < |Apply(w.db, step).calls| && Apply(w.db, step).calls[c].turn == w.db.calls[c].turn
    ensures TurnWoken(Advance(w, Tx(step)), t)
  {
    var v := Advance(w, Tx(step));
    RowChange(w.db, step, d);
    if AnsweredCall(v.db.calls[d].status) {
      var i := |w.db.outbox|;
      assert v.db.outbox[i] == ToolEnded(d) && i in NewlyEnded(w.db, v.db);
      NewEventWakes(w, v, t, d, i);
    } else {
      assert v.db.calls[d].turn == t && !SessionIsLive(v.db, v.db.calls[d].agent);
    }
  }

  lemma TxKeepsTurnWoken(w: World, step: Step, t: nat)
    requires JoinInv(w) && TxFits(step)
    ensures TurnWoken(Advance(w, Tx(step)), t)
  {
    var v := Advance(w, Tx(step));
    if HasAnswer(v.db.calls, t) && NoOpenCall(v.db.calls, t) {
      forall c | 0 <= c < |w.db.calls|
        ensures c < |v.db.calls| && v.db.calls[c].turn == w.db.calls[c].turn &&
                (!OpenCall(w.db.calls[c].status) ==> v.db.calls[c] == w.db.calls[c])
      {
        RowChange(w.db, step, c);
      }
      if d :| |w.db.calls| <= d < |v.db.calls| && v.db.calls[d].turn == t {
        var i := NewRow(w.db, step, d);
        assert i in NewlyEnded(w.db, v.db);
        NewEventWakes(w, v, t, d, i);
      } else if d :| 0 <= d < |w.db.calls| && w.db.calls[d].turn == t && OpenCall(w.db.calls[d].status) {
        EndedNowWakes(w, step, t, d);
      } else {
        OldTurnStaysWoken(w, step, t);
      }
    }
  }

  lemma TxKeepsAnswered(db: Db, step: Step, t: nat, c: nat)
    requires RowsAgree(db) && OwnersFit(db) && TxFits(step) && AnsweredIn(db.calls, t, c)
    ensures AnsweredIn(Apply(db, step).calls, t, c) && Apply(db, step).calls[c] == db.calls[c]
  {
    RowChange(db, step, c);
  }

  lemma TxKeepsReaders(w: World, step: Step)
    requires JoinInv(w) && TxFits(step)
    ensures ReadersFit(Advance(w, Tx(step)))
  {
    var v := Advance(w, Tx(step));
    StepAppends(w.db, step);
    forall t, k | t in w.lists && 0 <= k < |w.lists[t]|
      ensures AnsweredIn(v.db.calls, t, w.lists[t][k].call)
    {
      TxKeepsAnswered(w.db, step, t, w.lists[t][k].call);
    }
    forall c | Listed(w, c)
      ensures Listed(v, c)
    {
      RowChange(w.db, step, c);
    }
    forall h | 0 <= h < |w.handlers|
      ensures PcFits(v, w.handlers[h])
    {
      var pc := w.handlers[h];
      assert PcFits(w, pc);
      if pc.OutputSeen? || pc.NoneOpenSeen? || pc.ListRead? {
        RowChange(w.db, step, CallAt(w.db, pc.i));
      }
    }
  }

  /** Letting go of an event is safe for a turn that it does not wake, that is not ready or has ended, or
      whose call is listed and has its turn. */
  lemma DropKeepsTurn(w: World, h: nat, t: nat)
    requires At(w, h) && TurnWoken(w, t)
    requires !Wakes(w, t, w.handlers[h].i) || !NoOpenCall(w.db.calls, t) || HasEnded(w, t) ||
             (Listed(w, CallAt(w.db, w.handlers[h].i)) && CallAt(w.db, w.handlers[h].i) in w.triggered)
    ensures TurnWoken(Drop(w, h), t)
  {
    var v := Drop(w, h);
    if HasAnswer(w.db.calls, t) && NoOpenCall(w.db.calls, t) && !HasEnded(w, t) {
      if ListPending(w, t) {
        var i :| i in w.unread && Wakes(w, t, i) && !Listed(w, CallAt(w.db, i));
        assert i in v.unread && Wakes(v, t, i) && !Listed(v, CallAt(v.db, i));
      }
      if StartPending(w, t) {
        var i :| i in w.unread && Wakes(w, t, i) && CallAt(w.db, i) !in w.triggered;
        assert i in v.unread && Wakes(v, t, i) && CallAt(v.db, i) !in v.triggered;
      }
    }
  }

  lemma FailingKeepsEnded(w: World, h: nat, t: nat)
    requires At(w, h) && w.handlers[h].OverLimit? && HasEnded(w, t)
    ensures HasEnded(Handled(w, FailOver(h)), t)
  {
    var v := Handled(w, FailOver(h));
    var d :| 0 <= d < |w.db.calls| && w.db.calls[d].turn == t && !SessionIsLive(w.db, w.db.calls[d].agent);
    assert v.db.calls[d] == w.db.calls[d] && !SessionIsLive(v.db, v.db.calls[d].agent);
  }

  /** Failing the analysis ends the turn of the call, and leaves the other turns what woke them. */
  lemma FailOverKeepsTurn(w: World, h: nat, t: nat)
    requires JoinInv(w) && At(w, h) && w.handlers[h].OverLimit?
    ensures TurnWoken(Handled(w, FailOver(h)), t)
  {
    var c := CallAt(w.db, w.handlers[h].i);
    var v := Handled(w, FailOver(h));
    if w.db.calls[c].turn == t {
      assert v.db.calls[c] == w.db.calls[c] && !SessionIsLive(v.db, v.db.calls[c].agent);
      assert HasEnded(v, t);
    } else if HasAnswer(w.db.calls, t) && NoOpenCall(w.db.calls, t) {
      assert TurnWoken(w, t);
      if HasEnded(w, t) {
        FailingKeepsEnded(w, h, t);
      }
      SameForTurnKeepsTurn(w, v, t);
      KeptTurnStaysWoken(w, v, t);
    }
  }

  /** The list of the turn is now the one just read; other turns keep theirs. */
  lemma ReadListKeepsTurn(w: World, h: nat, t: nat)
    requires JoinInv(w) && At(w, h) && w.handlers[h].NoneOpenSeen?
    ensures TurnWoken(Handled(w, ReadList(h)), t)
  {
    var v := Handled(w, ReadList(h));
    assert TurnWoken(w, t);
    if HasAnswer(w.db.calls, t) && NoOpenCall(w.db.calls, t) {
      if w.db.calls[CallAt(w.db, w.handlers[h].i)].turn != t {
        KeptTurnStaysWoken(w, v, t);
      } else {
        assert WasRead(v, t);
        if StartPending(w, t) {
          var i :| i in w.unread && Wakes(w, t, i) && CallAt(w.db, i) !in w.triggered;
          assert i in v.unread && Wakes(v, t, i) && CallAt(v.db, i) !in v.triggered;
        }
      }
    }
  }

  /** The call whose turn is started was listed before. */
  lemma StartKeepsOwnTurn(w: World, h: nat, t: nat)
    requires At(w, h) && w.handlers[h].ListRead? && PcFits(w, w.handlers[h]) && TurnWoken(w, t)
    requires w.db.calls[CallAt(w.db, w.handlers[h].i)].turn == t
    ensures TurnWoken(Handled(w, StartNext(h)), t)
  {
    var v := Handled(w, StartNext(h));
    if HasAnswer(w.db.calls, t) && NoOpenCall(w.db.calls, t) && !HasEnded(w, t) {
      if ListPending(w, t) {
        var i :| i in w.unread && Wakes(w, t, i) && !Listed(w, CallAt(w.db, i));
        assert i in v.unread && Wakes(v, t, i) && !Listed(v, CallAt(v.db, i));
      }
      assert CallAt(w.db, w.handlers[h].i) in v.triggered;
    }
  }

  lemma StartKeepsTurn(w: World, h: nat, t: nat)
    requires At(w, h) && w.handlers[h].ListRead? && PcFits(w, w.handlers[h]) && TurnWoken(w, t)
    ensures TurnWoken(Handled(w, StartNext(h)), t)
  {
    var v := Handled(w, StartNext(h));
    if w.db.calls[CallAt(w.db, w.handlers[h].i)].turn == t {
      StartKeepsOwnTurn(w, h, t);
    } else if HasAnswer(w.db.calls, t) && NoOpenCall(w.db.calls, t) {
      assert w.triggered <= v.triggered;
      KeptTurnStaysWoken(w, v, t);
    }
  }

  /** The tables, lists and triggers are the same and no event was let go. */
  predicate OnlyMoves(w: World, v: World) {
    v.db == w.db && v.lists == w.lists && v.triggered == w.triggered && w.unread <= v.unread
  }

  lemma MovesKeepTurn(w: World, v: World, t: nat)
    requires TurnWoken(w, t) && OnlyMoves(w, v)
    ensures TurnWoken(v, t)
  {
    if HasAnswer(w.db.calls, t) && NoOpenCall(w.db.calls, t) {
      KeptTurnStaysWoken(w, v, t);
    }
  }

  /** Every decision of a handler to let go of its event is safe at the moment it is made. */
  lemma HandledKeepsTurn(w: World, s: JoinStep, t: nat)
    requires JoinInv(w) && !s.Tx? && !s.Spawn? && !s.Deliver? && At(w, s.h)
    ensures TurnWoken(Handled(w, s), t)
  {
    assert TurnWoken(w, t);
    var v, pc := Handled(w, s), w.handlers[s.h];
    if s.FailOver? && pc.OverLimit? {
      FailOverKeepsTurn(w, s.h, t);
    } else if s.ReadList? && pc.NoneOpenSeen? {
      ReadListKeepsTurn(w, s.h, t);
    } else if s.StartNext? && pc.ListRead? {
      assert PcFits(w, pc);
      StartKeepsTurn(w, s.h, t);
    } else if OnlyMoves(w, v) {
      MovesKeepTurn(w, v, t);
    } else {
      var c := CallAt(w.db, pc.i);
      if w.db.calls[c].turn == t && !SessionIsLive(w.db, w.db.calls[c].agent) {
        assert HasEnded(w, t);
      }
      DropKeepsTurn(w, s.h, t);
    }
  }

  lemma FailOverKeepsRest(w: World, h: nat)
    requires JoinInv(w) && At(w, h) && w.handlers[h].OverLimit?
    ensures TablesFit(Handled(w, FailOver(h)).db) && ReadersFit(Handled(w, FailOver(h)))
  {
    var g := w.db.calls[CallAt(w.db, w.handlers[h].i)].agent;
    var v := Handled(w, FailOver(h));
    StepKeepsTablesFit(w.db, Life(FailAnalysis(g, g)));
    assert v.db.calls == w.db.calls && v.db.outbox == w.db.outbox && v.lists == w.lists;
    SameTablesKeepReaders(w, v, h);
  }

  /** Nothing that the readers rest on has changed but one handler's place. */
  lemma SameTablesKeepReaders(w: World, v: World, h: nat)
    requires ReadersFit(w) && h < |w.handlers| && v.db.calls == w.db.calls && v.db.outbox == w.db.outbox &&
             v.lists == w.lists
    requires forall c :: c in v.triggered && c !in w.triggered ==> Listed(w, c)
    requires |v.handlers| == |w.handlers| && v.handlers == w.handlers[h := v.handlers[h]] && PcFits(v, v.handlers[h])
    ensures ReadersFit(v)
  {
    forall c | Listed(w, c) ensures Listed(v, c) {}
    forall k | 0 <= k < |v.handlers| && k != h
      ensures PcFits(v, v.handlers[k])
    {
      assert PcFits(w, w.handlers[k]);
    }
  }

  /** The new list names every call that the old one named, and the handler's own. */
  lemma ReadListKeepsRest(w: World, h: nat)
    requires JoinInv(w) && At(w, h) && w.handlers[h].NoneOpenSeen?
    ensures ReadersFit(Handled(w, ReadList(h)))
  {
    var v := Handled(w, ReadList(h));
    var c := CallAt(w.db, w.handlers[h].i);
    var t := w.db.calls[c].turn;
    assert PcFits(w, w.handlers[h]);
    forall d
      ensures Listed(w, d) ==> Listed(v, d)
      ensures d in Ids(v.lists[t]) ==> AnsweredIn(w.db.calls, t, d)
      ensures AnsweredIn(w.db.calls, t, d) ==> Listed(v, d)
    {
      OutputsExactly(w.db.calls, t, d);
      if Listed(w, d) {
        ListedIsAnswered(w, d);
      }
    }
    forall k | 0 <= k < |v.lists[t]|
      ensures AnsweredIn(v.db.calls, t, v.lists[t][k].call)
    {
      assert Ids(v.lists[t])[k] in Ids(v.lists[t]);
    }
    forall k | 0 <= k < |v.handlers| && k != h
      ensures PcFits(v, v.handlers[k])
    {
      assert PcFits(w, w.handlers[k]);
    }
  }

  /** The other transactions of a handler only look at the tables. */
  lemma LookKeepsPc(w: World, s: JoinStep)
    requires !s.Tx? && !s.Spawn? && !s.Deliver? && At(w, s.h) && PcFits(w, w.handlers[s.h])
    requires !(s.FailOver? && w.handlers[s.h].OverLimit?) && !(s.ReadList? && w.handlers[s.h].NoneOpenSeen?) &&
             !(s.StartNext? && w.handlers[s.h].ListRead?)
    ensures var v := Handled(w, s);
            v.db == w.db && v.lists == w.lists && v.triggered == w.triggered && |v.handlers| == |w.handlers| &&
            v.handlers == w.handlers[s.h := v.handlers[s.h]] && PcFits(v, v.handlers[s.h])
  {
  }

  lemma HandledKeepsRest(w: World, s: JoinStep)
    requires JoinInv(w) && !s.Tx? && !s.Spawn? && !s.Deliver? && At(w, s.h)
    ensures TablesFit(Handled(w, s).db) && ReadersFit(Handled(w, s))
  {
    assert PcFits(w, w.handlers[s.h]);
    if s.FailOver? && w.handlers[s.h].OverLimit? {
      FailOverKeepsRest(w, s.h);
    } else if s.ReadList? && w.handlers[s.h].NoneOpenSeen? {
      ReadListKeepsRest(w, s.h);
    } else if s.StartNext? && w.handlers[s.h].ListRead? {
      SameTablesKeepReaders(w, Handled(w, s), s.h);
    } else {
      LookKeepsPc(w, s);
      SameTablesKeepReaders(w, Handled(w, s), s.h);
    }
  }

  /** Steps that only deliver, take or let go of events. */
  lemma DeliveryKeepsJoinInv(w: World, s: JoinStep)
    requires JoinInv(w) && (s.Spawn? || s.Deliver? || s.Take? || s.Die?)
    ensures JoinInv(Advance(w, s))
  {
    var v := Advance(w, s);
    assert OnlyMoves(w, v);
    forall h | 0 <= h < |v.handlers|
      ensures PcFits(v, v.handlers[h])
    {
      assert h < |w.handlers| ==> PcFits(w, w.handlers[h]);
    }
    forall c | Listed(w, c) ensures Listed(v, c) {}
    forall t ensures TurnWoken(v, t) { MovesKeepTurn(w, v, t); }
  }

  lemma AdvanceKeepsJoinInv(w: World, s: JoinStep)
    requires JoinInv(w) && (s.Tx? ==> TxFits(s.step))
    ensures JoinInv(Advance(w, s))
  {
    match s
    case Tx(step) =>
      StepKeepsTablesFit(w.db, step);
      TxKeepsReaders(w, step);
      forall t ensures TurnWoken(Advance(w, s), t) { TxKeepsTurnWoken(w, step, t); }
    case Spawn => DeliveryKeepsJoinInv(w, s);
    case Deliver(_) => DeliveryKeepsJoinInv(w, s);
    case Take(_, _) => DeliveryKeepsJoinInv(w, s);
    case Die(_) => DeliveryKeepsJoinInv(w, s);
    case _ =>
      if At(w, s.h) {
        HandledKeepsRest(w, s);
        forall t ensures TurnWoken(Handled(w, s), t) { HandledKeepsTurn(w, s, t); }
      }
  }

  lemma {:induction false} RunKeepsJoinInv(steps: seq<JoinStep>)
    requires AllWellBehaved(steps)
    ensures JoinInv(RunJoin(Start(), steps))
  {
    if steps != [] {
      var n := |steps| - 1;
      RunKeepsJoinInv(steps[..n]);
      AdvanceKeepsJoinInv(RunJoin(Start(), steps[..n]), steps[n]);
    }
  }

  /** Turn `t` has calls, all are answered, no event of theirs is still to be handled, and the analysis
      has not ended. */
  predicate Finished(w: World, t: nat) {
    CallsOf(w.db.calls, t) != [] &&
    (forall c :: 0 <= c < |w.db.calls| && w.db.calls[c].turn == t ==>
      AnsweredCall(w.db.calls[c].status) && SessionIsLive(w.db, w.db.calls[c].agent)) &&
    (forall i :: i in w.unread && IsEndedEvent(w.db, i) ==> w.db.calls[CallAt(w.db, i)].turn != t)
  }

  /** No lost wake-up: for any number of calls and handlers, any completion order, repeated delivery and
      deaths between any two transactions of a handler, once all calls of a turn are answered and their
      events handled, and the analysis has not ended, some handler has read a list with exactly one output
      per call of the turn, in creation order, and a continuation turn was started for one of the calls. */
  lemma {:induction false} NoLostWakeup(steps: seq<JoinStep>, t: nat)
    requires AllWellBehaved(steps)
    ensures var w := RunJoin(Start(), steps);
            Finished(w, t) ==>
              t in w.lists && w.lists[t] == Outputs(w.db.calls, t) && Ids(w.lists[t]) == CallsOf(w.db.calls, t) &&
              exists c :: c in w.triggered && c < |w.db.calls| && w.db.calls[c].turn == t
  {
    RunKeepsJoinInv(steps);
    var w := RunJoin(Start(), steps);
    if Finished(w, t) {
      AllAnswered(w.db.calls, t);
      SomeCall(w.db.calls, t);
      var c :| 0 <= c < |w.db.calls| && w.db.calls[c].turn == t;
      assert AnsweredIn(w.db.calls, t, c);
      assert TurnWoken(w, t);
    }
  }

  lemma {:induction false} SomeCall(calls: seq<Call>, t: nat)
    requires CallsOf(calls, t) != []
    ensures exists c :: 0 <= c < |calls| && calls[c].turn == t
  {
    var n := |calls| - 1;
    if calls[n].turn != t {
      SomeCall(calls[..n], t);
      var c :| 0 <= c < n && calls[..n][c].turn == t;
      assert calls[c].turn == t;
    }
  }

  // --- Stability of a ready list ---

  predicate Commits(step: Step, t: nat) {
    step.Turning? && step.turn.CompleteWithTools? && step.turn.t == t
  }

  lemma StepKeepsTurn(db: Db, step: Step, t: nat)
    requires OwnersFit(db) && NoOpenCall(db.calls, t) && NamesHolder(step) && !Commits(step, t)
    ensures SameTurn(db.calls, Apply(db, step).calls, t)
  {
    RowsComeFromCommits(db, step);
    if step.Turning? && step.turn.CompleteWithTools? {
      InsertedCallsBelong(db.calls, step.turn.g, step.turn.t, step.turn.requests);
    }
    forall i | 0 <= i < |db.calls|
      ensures Apply(db, step).calls[i].turn == db.calls[i].turn
      ensures db.calls[i].turn == t ==> Apply(db, step).calls[i] == db.calls[i]
    {
      TurnOfRowStays(db, step, i);
      if db.calls[i].turn == t {
        StepKeepsEndedCall(db, step, i);
      }
    }
  }

  lemma TurnOfRowStays(db: Db, step: Step, c: nat)
    requires c < |db.calls|
    ensures c < |Apply(db, step).calls| && Apply(db, step).calls[c].turn == db.calls[c].turn
  {
    if step.Turning? {
      TurnFrame(db, step.turn);
    }
  }

  /** Once ready, the list never changes while the turn is not committed again; in particular the two
      statements of the read see the same rows whatever commits between them. */
  lemma {:induction false} ReadyListIsStable(db: Db, steps: seq<Step>, t: nat)
    requires OwnersFit(db) && ReadyOutputs(db, t).Some? && AllNameHolder(steps)
    requires forall i :: 0 <= i < |steps| ==> !Commits(steps[i], t)
    ensures ReadyOutputs(Run(db, steps), t) == ReadyOutputs(db, t)
  {
    if steps != [] {
      var n := |steps| - 1;
      ReadyListIsStable(db, steps[..n], t);
      RunKeepsOwners(db, steps[..n]);
      StepKeepsTurn(Run(db, steps[..n]), steps[n], t);
      SameOutputs(Run(db, steps[..n]).calls, Run(db, steps).calls, t);
    }
  }
}
