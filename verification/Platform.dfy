/** The shared Postgres state and the transactions that the API and the workers run on it.

    Tables are sequences and a row's id is its position, so a new row always gets a fresh id and
    creation order is row order.  An analysis and its one agent session are inserted by the same
    transaction and therefore share their id.  `Apply` gives the net effect of one committed
    transaction; a run is any sequence of transactions in any order, with stale, repeated and
    misdirected calls included. */
module Platform {
  import opened Wrappers

  datatype AnalysisStatus = Queued | Snapshotting | Running | Cancelling | Completed | Failed | Cancelled

  datatype Phase = Waiting | CallingModel | WaitingTool

  /** `Live` stands for the statuses outside completed, failed, cancelled and cancelling.
      No statement ever stores cancelling in a session row. */
  datatype SessionStatus = Live(phase: Phase) | SessionCompleted | SessionFailed | SessionCancelled

  datatype Session = Session(analysis: nat, status: SessionStatus, snapshot: Option<nat>, turnCount: nat)

  datatype TurnStatus = TurnOpen | TurnCompleted | TurnFailed

  datatype Turn = Turn(agent: nat, status: TurnStatus)

  datatype CallStatus = CallQueued | CallRunning | CallCompleted | CallFailed | CallDenied | CallCancelled

  type Token = nat

  datatype Call = Call(agent: nat, turn: nat, externalId: string, status: CallStatus,
                       owner: Option<Token>, expires: Option<int>, result: Option<string>)

  datatype Event =
    | AnalysisRequested(analysis: nat)
    | CancelRequested(analysis: nat)
    | SnapshotRequested(analysis: nat)
    | SnapshotReady(analysis: nat)
    | SnapshotFailed(analysis: nat)
    | AnalysisEnded(analysis: nat, status: AnalysisStatus)
    | ToolRequested(call: nat)
    | ToolEnded(call: nat)

  /** `batched` holds the analyses created for a batch, `issued` the claim tokens drawn so far.  `owed`
      holds the analyses for which some agent handler has seen `fail_analysis` return True and has not
      yet written its event, `lost` those whose handler died before it could. */
  datatype Db = Db(analyses: seq<AnalysisStatus>, sessions: seq<Session>, turns: seq<Turn>,
                   calls: seq<Call>, outbox: seq<Event>, batched: set<nat>, issued: set<Token>,
                   owed: set<nat>, lost: set<nat>)

  /** One requested tool call; `reused` carries the stored result of an identical earlier call. */
  datatype Request = Request(externalId: string, reused: Option<string>)

  datatype Answer = AnswerCompleted | AnswerFailed | AnswerDenied

  /** Transactions of the API, the analysis worker, the snapshot worker and the agent's failure paths. */
  datatype LifeStep =
    | CreateAnalysis(direct: bool)
    | HandleAnalysisRequested(a: nat)
    | HandleCancelRequested(a: nat, agent: Option<nat>)
    | ApiCancel(a: nat)
    | AssociateSnapshot(a: nat, g: nat, snapshot: nat)
    | SnapshotFail(a: nat, g: nat)
    | FailAnalysis(a: nat, g: nat)
    | EmitFailed(a: nat)
    | DropFailed(a: nat)

  /** Transactions of an agent turn. */
  datatype TurnStep =
    | SetPhase(g: nat, phase: Phase)
    | StartTurn(g: nat)
    | FailTurn(t: nat)
    | CompleteWithTools(t: nat, a: nat, g: nat, requests: seq<Request>)
    | CompleteWithAnswer(t: nat, a: nat, g: nat)

  /** Transactions of the execution worker on one tool call. */
  datatype CallStep =
    | ClaimCall(c: nat, now: int, token: Token)
    | RenewCall(c: nat, now: int, token: Token)
    | ReleaseCall(c: nat, token: Token)
    | FinalizeCall(c: nat, holder: Option<Token>, answer: Answer, result: string)
    | CancelClaimed(c: nat, token: Token, result: string)
    | Reannounce(c: nat)

  datatype Step = Life(life: LifeStep) | Turning(turn: TurnStep) | Calling(call: CallStep)

  const CLAIM_TTL: int := 900

  predicate LiveAnalysis(s: AnalysisStatus) {
    s.Queued? || s.Snapshotting? || s.Running?
  }

  predicate TerminalAnalysis(s: AnalysisStatus) {
    s.Completed? || s.Failed? || s.Cancelled?
  }

  predicate OpenCall(s: CallStatus) {
    s.CallQueued? || s.CallRunning?
  }

  predicate AnsweredCall(s: CallStatus) {
    s.CallCompleted? || s.CallFailed? || s.CallDenied?
  }

  function StatusOf(answer: Answer): CallStatus {
    match answer
    case AnswerCompleted => CallCompleted
    case AnswerFailed => CallFailed
    case AnswerDenied => CallDenied
  }

  function Initial(): Db {
    Db([], [], [], [], [], {}, {}, {}, {})
  }

  // --- Guards read by several transactions ---

  predicate AnalysisIsLive(db: Db, a: nat) {
    a < |db.analyses| && LiveAnalysis(db.analyses[a])
  }

  predicate SessionIsLive(db: Db, g: nat) {
    g < |db.sessions| && db.sessions[g].status.Live?
  }

  /** The row pair locked by `_lock_continuable_session` exists. */
  predicate Continuable(db: Db, a: nat, g: nat) {
    AnalysisIsLive(db, a) && SessionIsLive(db, g) && db.sessions[g].analysis == a
  }

  // --- Set-oriented updates ---

  function CancelledSessions(sessions: seq<Session>, a: nat): (r: seq<Session>)
    ensures |r| == |sessions|
    ensures forall i :: 0 <= i < |r| ==>
      r[i] == if sessions[i].analysis == a && sessions[i].status.Live?
              then sessions[i].(status := SessionCancelled) else sessions[i]
  {
    seq(|sessions|, i requires 0 <= i < |sessions| =>
      if sessions[i].analysis == a && sessions[i].status.Live?
      then sessions[i].(status := SessionCancelled) else sessions[i])
  }

  /** Cancelling leaves the claim owner in the row. */
  function CancelledCall(call: Call): Call {
    call.(status := CallCancelled, expires := None)
  }

  function CancelledCalls(calls: seq<Call>, g: nat): (r: seq<Call>)
    ensures |r| == |calls|
    ensures forall i :: 0 <= i < |r| ==>
      r[i] == if calls[i].agent == g && OpenCall(calls[i].status) then CancelledCall(calls[i]) else calls[i]
  {
    seq(|calls|, i requires 0 <= i < |calls| =>
      if calls[i].agent == g && OpenCall(calls[i].status) then CancelledCall(calls[i]) else calls[i])
  }

  // --- Tool-call insertion under the unique index (agent_id, openai_call_id) ---

  predicate IsCallOf(call: Call, g: nat, externalId: string) {
    call.agent == g && call.externalId == externalId
  }

  function FindCall(calls: seq<Call>, g: nat, externalId: string): (r: Option<nat>)
    ensures r.Some? ==> r.value < |calls| && IsCallOf(calls[r.value], g, externalId)
    ensures r.None? ==> forall i :: 0 <= i < |calls| ==> !IsCallOf(calls[i], g, externalId)
  {
    if calls == [] then None
    else
      var n := |calls| - 1;
      if IsCallOf(calls[n], g, externalId) then Some(n) else FindCall(calls[..n], g, externalId)
  }

  function NewCall(g: nat, t: nat, request: Request): Call {
    Call(g, t, request.externalId, if request.reused.Some? then CallCompleted else CallQueued,
         None, None, request.reused)
  }

  function InsertCall(calls: seq<Call>, g: nat, t: nat, request: Request): seq<Call> {
    if FindCall(calls, g, request.externalId).Some? then calls else calls + [NewCall(g, t, request)]
  }

  function InsertCalls(calls: seq<Call>, g: nat, t: nat, requests: seq<Request>): (r: seq<Call>)
    ensures calls <= r
  {
    if requests == [] then calls
    else
      var n := |requests| - 1;
      InsertCall(InsertCalls(calls, g, t, requests[..n]), g, t, requests[n])
  }

  /** The event written for a request carries the id of the row that the insert resolved to. */
  function RequestEvent(calls: seq<Call>, g: nat, request: Request): Event {
    var id := FindCall(calls, g, request.externalId);
    var row := if id.Some? then id.value else 0;
    if request.reused.Some? then ToolEnded(row) else ToolRequested(row)
  }

  function RequestEvents(calls: seq<Call>, g: nat, requests: seq<Request>): (r: seq<Event>)
    ensures |r| == |requests|
    ensures forall i :: 0 <= i < |r| ==> r[i] == RequestEvent(calls, g, requests[i])
  {
    seq(|requests|, i requires 0 <= i < |requests| => RequestEvent(calls, g, requests[i]))
  }

  // --- Transactions ---

  function WithSession(db: Db, g: nat, session: Session): Db
    requires g < |db.sessions|
  {
    db.(sessions := db.sessions[g := session])
  }

  function WithStatus(db: Db, a: nat, status: AnalysisStatus): Db
    requires a < |db.analyses|
  {
    db.(analyses := db.analyses[a := status])
  }

  function Publish(db: Db, events: seq<Event>): Db {
    db.(outbox := db.outbox + events)
  }

  /** `fail_analysis`: two independently guarded updates. */
  function FailedPair(db: Db, a: nat, g: nat): Db {
    var failed := AnalysisIsLive(db, a);
    var db1 := if failed then WithStatus(db, a, Failed).(owed := db.owed + {a}) else db;
    if SessionIsLive(db, g) then WithSession(db1, g, db.sessions[g].(status := SessionFailed)) else db1
  }

  /** `complete_turn_with_tool_calls`. */
  function TurnWithTools(db: Db, t: nat, a: nat, g: nat, requests: seq<Request>): Db {
    if !Continuable(db, a, g) then db
    else
      var calls := InsertCalls(db.calls, g, t, requests);
      Publish(TurnDone(db, t, g).(calls := calls), RequestEvents(calls, g, requests))
  }

  /** `_update_latest_response_on_connection` followed by `_complete_turn_on_connection`. */
  function TurnDone(db: Db, t: nat, g: nat): Db
    requires g < |db.sessions|
  {
    var session := db.sessions[g];
    db.(sessions := db.sessions[g := session.(turnCount := session.turnCount + 1)],
        turns := if t < |db.turns| then db.turns[t := db.turns[t].(status := TurnCompleted)] else db.turns)
  }

  /** `complete_turn_with_final_answer`. */
  function TurnWithAnswer(db: Db, t: nat, a: nat, g: nat): Db {
    if !Continuable(db, a, g) then db
    else
      var db1 := TurnDone(db, t, g);
      var db2 := WithSession(WithStatus(db1, a, Completed), g, db1.sessions[g].(status := SessionCompleted));
      Publish(db2, [AnalysisEnded(a, Completed)])
  }

  predicate Claimable(call: Call, now: int) {
    call.status.CallQueued? || (call.status.CallRunning? && call.expires.Some? && call.expires.value < now)
  }

  predicate HeldBy(call: Call, token: Token) {
    call.status.CallRunning? && call.owner == Some(token)
  }

  /** The guard of `_update_terminal_tool_call`: not cancelled, and no holder named or the row's holder. */
  predicate Finalizable(call: Call, holder: Option<Token>) {
    !call.status.CallCancelled? && (holder.None? || call.owner == holder)
  }

  function WithCall(db: Db, c: nat, call: Call): Db
    requires c < |db.calls|
  {
    db.(calls := db.calls[c := call])
  }

  function EndedCall(call: Call, status: CallStatus, result: string): Call {
    call.(status := status, owner := None, expires := None, result := Some(result))
  }

  function ApplyLife(db: Db, step: LifeStep): Db {
    match step
    case CreateAnalysis(direct) =>
      var a := |db.analyses|;
      Publish(db.(analyses := db.analyses + [Queued],
                  sessions := db.sessions + [Session(a, Live(Waiting), None, 0)],
                  batched := if direct then db.batched else db.batched + {a}),
              if direct then [AnalysisRequested(a)] else [])
    case HandleAnalysisRequested(a) =>
      if a < |db.analyses| && db.analyses[a].Queued?
      then Publish(WithStatus(db, a, Snapshotting), [SnapshotRequested(a)]) else db
    case HandleCancelRequested(a, agent) =>
      if a < |db.analyses| && !TerminalAnalysis(db.analyses[a])
      then Publish(WithStatus(db, a, Cancelled).(
                     sessions := CancelledSessions(db.sessions, a),
                     calls := if agent.Some? then CancelledCalls(db.calls, agent.value) else db.calls),
                   [AnalysisEnded(a, Cancelled)])
      else db
    case ApiCancel(a) =>
      if a < |db.analyses| && !TerminalAnalysis(db.analyses[a])
      then Publish(WithStatus(db, a, Cancelling).(
                     sessions := CancelledSessions(db.sessions, a), calls := CancelledCalls(db.calls, a)),
                   [CancelRequested(a)])
      else db
    case AssociateSnapshot(a, g, snapshot) =>
      if SessionIsLive(db, g) && db.sessions[g].analysis == a
      then
        var db1 := WithSession(db, g, db.sessions[g].(status := Live(Waiting), snapshot := Some(snapshot)));
        Publish(if AnalysisIsLive(db, a) then WithStatus(db1, a, Running) else db1, [SnapshotReady(a)])
      else db
    case SnapshotFail(a, g) =>
      if AnalysisIsLive(db, a)
      then
        var db1 := WithStatus(db, a, Failed);
        Publish(if SessionIsLive(db, g) && db.sessions[g].analysis == a
                then WithSession(db1, g, db.sessions[g].(status := SessionFailed)) else db1,
                [SnapshotFailed(a)])
      else db
    case FailAnalysis(a, g) => FailedPair(db, a, g)
    case EmitFailed(a) =>
      if a in db.owed then Publish(db.(owed := db.owed - {a}), [AnalysisEnded(a, Failed)]) else db
    case DropFailed(a) =>
      if a in db.owed then db.(owed := db.owed - {a}, lost := db.lost + {a}) else db
  }

  function ApplyTurn(db: Db, step: TurnStep): Db {
    match step
    case SetPhase(g, phase) =>
      if SessionIsLive(db, g) then WithSession(db, g, db.sessions[g].(status := Live(phase))) else db
    case StartTurn(g) =>
      if g < |db.sessions| then db.(turns := db.turns + [Turn(g, TurnOpen)]) else db
    case FailTurn(t) =>
      if t < |db.turns| then db.(turns := db.turns[t := db.turns[t].(status := TurnFailed)]) else db
    case CompleteWithTools(t, a, g, requests) => TurnWithTools(db, t, a, g, requests)
    case CompleteWithAnswer(t, a, g) => TurnWithAnswer(db, t, a, g)
  }

  function ApplyCall(db: Db, step: CallStep): Db {
    match step
    case ClaimCall(c, now, token) =>
      if c < |db.calls| && token !in db.issued && Claimable(db.calls[c], now)
      then WithCall(db, c, db.calls[c].(status := CallRunning, owner := Some(token),
                                        expires := Some(now + CLAIM_TTL))).(issued := db.issued + {token})
      else db
    case RenewCall(c, now, token) =>
      if c < |db.calls| && HeldBy(db.calls[c], token)
      then WithCall(db, c, db.calls[c].(expires := Some(now + CLAIM_TTL))) else db
    case ReleaseCall(c, token) =>
      if c < |db.calls| && HeldBy(db.calls[c], token)
      then WithCall(db, c, db.calls[c].(status := CallQueued, owner := None, expires := None)) else db
    case FinalizeCall(c, holder, answer, result) =>
      if c < |db.calls| && Finalizable(db.calls[c], holder)
      then Publish(WithCall(db, c, EndedCall(db.calls[c], StatusOf(answer), result)), [ToolEnded(c)])
      else db
    case CancelClaimed(c, token, result) =>
      if c < |db.calls| && Finalizable(db.calls[c], Some(token)) && CancelSeen(db, db.calls[c].agent)
      then Publish(WithCall(db, c, EndedCall(db.calls[c], CallCancelled, result)), [ToolEnded(c)])
      else db
    case Reannounce(c) =>
      if c < |db.calls|
      then Publish(db, [if OpenCall(db.calls[c].status) then ToolRequested(c) else ToolEnded(c)]) else db
  }

  function Apply(db: Db, step: Step): Db {
    match step
    case Life(s) => ApplyLife(db, s)
    case Turning(s) => ApplyTurn(db, s)
    case Calling(s) => ApplyCall(db, s)
  }

  /** What the execution worker reads before it cancels a claimed call instead of running it. */
  predicate CancelSeen(db: Db, g: nat) {
    g < |db.analyses| && (db.analyses[g].Cancelling? || db.analyses[g].Cancelled?)
  }

  function Run(db: Db, steps: seq<Step>): Db {
    if steps == [] then db else Apply(Run(db, steps[..|steps| - 1]), steps[|steps| - 1])
  }

  /** Both ids of a step name the same analysis: events and handlers take them from one joined row. */
  predicate Addressed(step: Step) {
    step.Life? && (step.life.FailAnalysis? || step.life.SnapshotFail?) ==> step.life.a == step.life.g
  }

  predicate AllAddressed(steps: seq<Step>) {
    forall i :: 0 <= i < |steps| ==> Addressed(steps[i])
  }

  // --- What each group of transactions leaves alone ---

  predicate ToolEvent(e: Event) {
    e.ToolRequested? || e.ToolEnded?
  }

  lemma CallFrame(db: Db, step: CallStep)
    ensures var after := ApplyCall(db, step);
            after.analyses == db.analyses && after.sessions == db.sessions && after.turns == db.turns &&
            after.owed == db.owed && after.lost == db.lost && after.batched == db.batched &&
            |after.calls| == |db.calls| && db.outbox <= after.outbox &&
            db.issued <= after.issued &&
            forall i :: |db.outbox| <= i < |after.outbox| ==> ToolEvent(after.outbox[i])
  {
  }

  lemma TurnFrame(db: Db, step: TurnStep)
    ensures var after := ApplyTurn(db, step);
            |after.analyses| == |db.analyses| && |after.sessions| == |db.sessions| &&
            db.calls <= after.calls && db.outbox <= after.outbox && after.owed == db.owed &&
            after.lost == db.lost && after.batched == db.batched && after.issued == db.issued &&
            (!step.CompleteWithAnswer? ==> after.analyses == db.analyses) &&
            (forall i :: |db.outbox| <= i < |after.outbox| ==>
              ToolEvent(after.outbox[i]) || step.CompleteWithAnswer?) &&
            (!step.CompleteWithTools? ==> after.calls == db.calls)
  {
  }

  lemma LifeFrame(db: Db, step: LifeStep)
    ensures var after := ApplyLife(db, step);
            |db.analyses| <= |after.analyses| && |db.sessions| <= |after.sessions| && after.turns == db.turns &&
            |after.calls| == |db.calls| && after.issued == db.issued && db.outbox <= after.outbox &&
            db.batched <= after.batched && db.lost <= after.lost &&
            forall i :: |db.outbox| <= i < |after.outbox| ==> !ToolEvent(after.outbox[i])
  {
  }
}
