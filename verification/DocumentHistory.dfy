/** What the revision history says: every revision is the doing of its tool call, with the arguments of
    that call, on a document of its analysis. */
module DocumentHistory {
  import opened Wrappers
  import opened DocumentStore

  predicate HasText(op: Op) {
    op.Create? || op.Update?
  }

  /** The content that a create or update of `text` stores. */
  function TextContent(env: Env, doc: nat, version: nat, call: nat): Content {
    Content(Ref(doc, version, call), env.digest(env.args(call).text), |env.args(call).text|)
  }

  /** The revision is what its tool call asked for: its operation, on a document of its analysis, one
      version after the expected one, with its text if it has one. */
  predicate RevisionFits(env: Env, docs: map<nat, Doc>, r: Revision) {
    var args := env.args(r.call);
    r.op == args.op && r.doc in docs && docs[r.doc].analysis == args.analysis &&
    (if args.op.Create? then r.version == 1 else r.doc == args.target && r.version == args.expected + 1) &&
    (HasText(args.op) ==> r.content == TextContent(env, r.doc, r.version, r.call))
  }

  /** Deleting and finalizing keep the content of the version before. */
  predicate ContentsHandedOn(revisions: seq<Revision>) {
    forall i, j :: 0 <= i < |revisions| && 0 <= j < |revisions| && Precedes(revisions[i], revisions[j]) ==>
      (HasText(revisions[j].op) || revisions[j].content == revisions[i].content)
  }

  /** The two are successive versions of one document. */
  predicate Precedes(first: Revision, second: Revision) {
    second.doc == first.doc && second.version == first.version + 1
  }

  predicate HistoryFits(env: Env, db: Db) {
    (forall i :: 0 <= i < |db.revisions| ==> RevisionFits(env, db.docs, db.revisions[i])) &&
    ContentsHandedOn(db.revisions)
  }

  /** A call in progress works with its own arguments on a document of its analysis; one that keeps the
      content has that of the version it expects. */
  predicate TaskFits(env: Env, db: Db, task: Task) {
    task == NewTask(env, task.call).(stage := task.stage) &&
    match task.stage
    case Opened(doc, _) => Aims(db, task, doc)
    case Ready(doc, version, content) =>
      Aims(db, task, doc) &&
      if HasText(task.op) then content == TextContent(env, doc, version, task.call)
      else doc in db.docs && (db.docs[doc].version == task.expected ==> content == db.docs[doc].content)
    case Refused(error) => RefusalHolds(db, task, error)
    case _ => true
  }

  predicate Aims(db: Db, task: Task, doc: nat) {
    task.op.Create? ||
    (doc in db.docs && db.docs[doc].analysis == task.analysis && db.docs[doc].version >= task.expected)
  }

  /** Refusals that stay true for good: the document is deleted or finalized, or the call has its
      revision already. */
  predicate RefusalHolds(db: Db, task: Task, error: Error) {
    match error
    case IsDeleted => task.target in db.docs && db.docs[task.target].status.Deleted?
    case IsFinalized => task.target in db.docs && db.docs[task.target].status.Finalized?
    case Duplicate => task.call in CallsOf(db.revisions)
    case _ => !task.op.Create?
  }

  predicate ProvenanceInv(env: Env, s: Store) {
    HistoryFits(env, s.db) && forall t :: 0 <= t < |s.tasks| ==> TaskFits(env, s.db, s.tasks[t])
  }

  /** The row of the version that the task expects repeats its revision. */
  lemma LatestContent(db: Db, d: nat, i: nat)
    requires TablesInv(db.docs, db.revisions) && d in db.docs
    requires i < |db.revisions| && db.revisions[i].doc == d && db.revisions[i].version == db.docs[d].version
    ensures db.revisions[i].content == db.docs[d].content
  {
  }

  lemma WriteKeepsHistory(env: Env, db: Db, task: Task)
    requires DbInv(env, db) && HistoryFits(env, db) && task.stage.Ready? && CanWrite(db, task)
    requires TaskInv(env, db, task) && TaskFits(env, db, task)
    ensures HistoryFits(env, Recorded(db, RowOf(db, task), RevisionOf(task)))
  {
    var r := RevisionOf(task);
    var after := Recorded(db, RowOf(db, task), r);
    forall i | 0 <= i < |after.revisions|
      ensures RevisionFits(env, after.docs, after.revisions[i])
    {
      if i < |db.revisions| {
        assert RevisionFits(env, db.docs, db.revisions[i]);
      }
    }
    forall i, j | 0 <= i < |after.revisions| && 0 <= j < |after.revisions| &&
                  Precedes(after.revisions[i], after.revisions[j])
      ensures HasText(after.revisions[j].op) || after.revisions[j].content == after.revisions[i].content
    {
      if j == |db.revisions| {
        LatestContent(db, r.doc, i);
      }
    }
  }

  lemma WriteKeepsTask(env: Env, db: Db, task: Task, other: Task)
    requires DbInv(env, db) && task.stage.Ready? && CanWrite(db, task) && Unrecorded(db, task.call)
    requires TaskInv(env, db, task) && TaskFits(env, db, task) && TaskFits(env, db, other)
    requires TaskInv(env, db, other) && Apart(task, other)
    ensures TaskFits(env, Recorded(db, RowOf(db, task), RevisionOf(task)), other)
  {
  }

  lemma WriteKeepsProvenance(env: Env, s: Store, t: nat)
    requires StoreInv(env, s) && ProvenanceInv(env, s) && t < |s.tasks| && s.tasks[t].stage.Ready?
    ensures ProvenanceInv(env, Written(s, t))
  {
    var task, s' := s.tasks[t], Written(s, t);
    assert TaskInv(env, s.db, task) && TaskFits(env, s.db, task);
    if CanWrite(s.db, task) && Unrecorded(s.db, task.call) {
      WriteKeepsHistory(env, s.db, task);
      forall u | 0 <= u < |s.tasks| && u != t
        ensures TaskFits(env, s'.db, s.tasks[u])
      {
        TasksApart(env, s.db, s.tasks, t, u);
        WriteKeepsTask(env, s.db, task, s.tasks[u]);
      }
    }
  }

  lemma PutKeepsProvenance(env: Env, s: Store, t: nat)
    requires StoreInv(env, s) && ProvenanceInv(env, s)
    ensures ProvenanceInv(env, Act(env, s, Put(t)))
  {
    if AtStage(s, t) && s.tasks[t].stage.Opened? {
      assert TaskInv(env, s.db, s.tasks[t]);
    }
  }

  lemma ActKeepsProvenance(env: Env, s: Store, move: Move)
    requires StoreInv(env, s) && ProvenanceInv(env, s)
    ensures ProvenanceInv(env, Act(env, s, move))
  {
    match move
    case Submit(_) =>
    case CheckReplay(_) =>
    case Load(_) =>
    case Draw(_, _) =>
    case Put(t) => PutKeepsProvenance(env, s, t);
    case Write(t) => if AtStage(s, t) && s.tasks[t].stage.Ready? { WriteKeepsProvenance(env, s, t); }
  }

  /** In every interleaving: each revision is what its tool call asked for, on a document of the analysis
      of that call; deleting and finalizing hand the content on; and no call is told that a document has
      ended, or that it was answered before, when that is not so. */
  lemma {:induction false} RunKeepsProvenance(env: Env, moves: seq<Move>)
    ensures ProvenanceInv(env, Run(env, EmptyStore(), moves))
  {
    if moves != [] {
      var n := |moves| - 1;
      RunKeepsProvenance(env, moves[..n]);
      RunKeepsStoreInv(env, moves[..n]);
      ActKeepsProvenance(env, Run(env, EmptyStore(), moves[..n]), moves[n]);
    }
  }

  // --- A call that nobody interferes with ---

  /** The status that a document has after each operation. */
  predicate Ends(op: Op, status: Status) {
    if op.Delete? then status.Deleted? else if op.Finalize? then status.Finalized? else status.Draft?
  }

  function LoneCall(env: Env, s: Store, call: nat): Store {
    var t := |s.tasks|;
    Act(env, Act(env, Act(env, Act(env, Act(env, s, Submit(call)), CheckReplay(t)), Load(t)), Put(t)), Write(t))
  }

  /** Why a call on the row of `target` is refused, if it is. */
  function RefusalFor(db: Db, args: Args): Option<Error> {
    if args.target !in db.docs || db.docs[args.target].analysis != args.analysis then Some(NotFound)
    else if db.docs[args.target].status == Deleted then Some(IsDeleted)
    else if db.docs[args.target].status == Finalized then Some(IsFinalized)
    else if db.docs[args.target].version != args.expected then Some(Conflict)
    else None
  }

  lemma LoneLoad(env: Env, s: Store, call: nat)
    requires env.args(call).op != Create && Unrecorded(s.db, call)
    ensures var t := |s.tasks|;
            var loaded := Act(env, Act(env, Act(env, s, Submit(call)), CheckReplay(t)), Load(t));
            |loaded.tasks| == t + 1 && loaded.db == s.db && loaded.tasks[t] ==
              NewTask(env, call).(stage := Loaded(s.db, NewTask(env, call).(stage := Checked)))
  {
    FoundIff(s.db.revisions, call);
  }

  /** Alone, an update, delete or finalize is refused for exactly these reasons, without effect; else it
      returns and records the next version, with its text or the content there was. */
  lemma LoneCallDecided(env: Env, s: Store, call: nat)
    requires env.args(call).op != Create && Unrecorded(s.db, call)
    ensures var args, t, after := env.args(call), |s.tasks|, LoneCall(env, s, call);
            |after.tasks| == t + 1 &&
            match RefusalFor(s.db, args)
            case Some(error) => after.tasks[t].stage == Refused(error) && after.db == s.db
            case None =>
              var content := if args.op == Update then TextContent(env, args.target, args.expected + 1, call)
                             else s.db.docs[args.target].content;
              after.tasks[t].stage.Returned? && after.tasks[t].stage.result.doc == args.target &&
              after.tasks[t].stage.result.version == args.expected + 1 &&
              after.tasks[t].stage.result.content == content && Ends(args.op, after.tasks[t].stage.result.status) &&
              args.target in after.db.docs && Ends(args.op, after.db.docs[args.target].status) &&
              after.db.docs[args.target].version == args.expected + 1 &&
              after.db.docs[args.target].content == content &&
              after.db.revisions ==
                s.db.revisions + [Revision(args.target, args.expected + 1, call, args.op, content)]
  {
    LoneLoad(env, s, call);
  }

  function LoneCreate(env: Env, s: Store, call: nat, id: nat): Store {
    var t := |s.tasks|;
    Act(env, Act(env, Act(env, Act(env, Act(env, s, Submit(call)), CheckReplay(t)), Draw(t, id)), Put(t)), Write(t))
  }

  /** Alone, a create records version 1 of a new draft of its analysis with its text. */
  lemma LoneCreateSucceeds(env: Env, s: Store, call: nat, id: nat)
    requires DbInv(env, s.db) && env.args(call).op == Create && Unrecorded(s.db, call) && id !in s.db.drawn
    ensures var t, after := |s.tasks|, LoneCreate(env, s, call, id);
            var content := TextContent(env, id, 1, call);
            |after.tasks| == t + 1 && after.tasks[t].stage == Returned(Result(id, Draft, 1, content)) &&
            after.db.docs == s.db.docs[id := Doc(env.args(call).analysis, Draft, 1, content)] &&
            after.db.revisions == s.db.revisions + [Revision(id, 1, call, Create, content)] &&
            after.db.objects == s.db.objects[content.ref := env.args(call).text]
  {
    FoundIff(s.db.revisions, call);
  }

  /** A tool call that has its revision is answered from it, whatever it asks for, and changes nothing. */
  lemma RecordedCallIsReplayed(env: Env, s: Store, call: nat, i: nat)
    requires StoreInv(env, s) && i < |s.db.revisions| && s.db.revisions[i].call == call
    ensures var t := |s.tasks|;
            var after := Act(env, Act(env, s, Submit(call)), CheckReplay(t));
            var r := s.db.revisions[i];
            after.db == s.db && |after.tasks| == t + 1 && after.tasks[t].stage.Returned? &&
            after.tasks[t].stage.result.doc == r.doc && after.tasks[t].stage.result.version == r.version &&
            after.tasks[t].stage.result.content == r.content && Ends(r.op, after.tasks[t].stage.result.status)
  {
    CallsInclude(s.db.revisions, i);
    FoundIff(s.db.revisions, call);
    assert FindRevision(s.db.revisions, call) == Some(i);
  }

  lemma {:induction false} RunAppends(env: Env, s: Store, moves: seq<Move>, move: Move)
    ensures Run(env, s, moves + [move]) == Act(env, Run(env, s, moves), move)
  {
    assert (moves + [move])[..|moves|] == moves;
  }

  /** Both are runs of the service. */
  lemma LoneCallsAreRuns(env: Env, s: Store, call: nat, id: nat)
    ensures var t := |s.tasks|;
            LoneCall(env, s, call) == Run(env, s, [Submit(call), CheckReplay(t), Load(t), Put(t), Write(t)]) &&
            LoneCreate(env, s, call, id) == Run(env, s, [Submit(call), CheckReplay(t), Draw(t, id), Put(t), Write(t)])
  {
    var t := |s.tasks|;
    var begun := [Submit(call), CheckReplay(t)];
    assert Run(env, s, []) == s;
    RunAppends(env, s, [], Submit(call));
    RunAppends(env, s, [Submit(call)], CheckReplay(t));
    RunAppends(env, s, begun, Load(t));
    RunAppends(env, s, begun + [Load(t)], Put(t));
    RunAppends(env, s, begun + [Load(t), Put(t)], Write(t));
    RunAppends(env, s, begun, Draw(t, id));
    RunAppends(env, s, begun + [Draw(t, id)], Put(t));
    RunAppends(env, s, begun + [Draw(t, id), Put(t)], Write(t));
    assert [] + [Submit(call)] == [Submit(call)] && [Submit(call)] + [CheckReplay(t)] == begun;
    assert begun + [Load(t)] + [Put(t)] == begun + [Load(t), Put(t)];
    assert begun + [Load(t), Put(t)] + [Write(t)] == [Submit(call), CheckReplay(t), Load(t), Put(t), Write(t)];
    assert begun + [Draw(t, id)] + [Put(t)] == begun + [Draw(t, id), Put(t)];
    assert begun + [Draw(t, id), Put(t)] + [Write(t)] ==
           [Submit(call), CheckReplay(t), Draw(t, id), Put(t), Write(t)];
  }
}
