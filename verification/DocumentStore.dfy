/** Versioned documents: service calls read, store content and write compare-and-set, and the phases
    of concurrent calls interleave freely.  A tool call may be executed any number of times, one after
    the other or at the same time, always with the arguments stored for it.  Document ids are drawn
    fresh. */
module DocumentStore {
  import opened Wrappers

  datatype Status = Draft | Finalized | Deleted

  datatype Op = Create | Update | Delete | Finalize

  /** The object key of a content: document, version and tool call. */
  datatype Ref = Ref(doc: nat, version: nat, call: nat)

  datatype Content = Content(ref: Ref, hash: nat, size: nat)

  datatype Doc = Doc(analysis: nat, status: Status, version: nat, content: Content)

  datatype Revision = Revision(doc: nat, version: nat, call: nat, op: Op, content: Content)

  datatype Result = Result(doc: nat, status: Status, version: nat, content: Content)

  /** `Duplicate` is the unique index on the tool call of a revision refusing a second one. */
  datatype Error = NotFound | IsDeleted | IsFinalized | Conflict | Duplicate

  /** The arguments of a tool call; `target` and `expected` are ignored by create, `text` is used by
      create and update. */
  datatype Args = Args(op: Op, analysis: nat, target: nat, expected: nat, text: string)

  /** The content digest, and the arguments stored for each tool call. */
  datatype Env = Env(digest: string -> nat, args: nat -> Args)

  datatype Stage =
    | Begun
    | Checked
    | Opened(doc: nat, version: nat)
    | Ready(doc: nat, version: nat, content: Content)
    | Returned(result: Result)
    | Refused(error: Error)

  /** One execution of a tool call by the service. */
  datatype Task = Task(call: nat, op: Op, analysis: nat, target: nat, expected: nat, text: string, stage: Stage)

  /** `drawn` is the set of document ids generated so far. */
  datatype Db = Db(docs: map<nat, Doc>, revisions: seq<Revision>, objects: map<Ref, string>, drawn: set<nat>)

  datatype Store = Store(db: Db, tasks: seq<Task>)

  datatype Move =
    | Submit(call: nat)
    | CheckReplay(t: nat)
    | Draw(t: nat, id: nat)
    | Load(t: nat)
    | Put(t: nat)
    | Write(t: nat)

  /** `status_for_revision`. */
  function StatusFor(op: Op): Status {
    match op
    case Delete => Deleted
    case Finalize => Finalized
    case _ => Draft
  }

  function FindRevision(revisions: seq<Revision>, call: nat): (r: Option<nat>)
    ensures r.Some? ==> r.value < |revisions| && revisions[r.value].call == call
    ensures r.None? ==> forall i :: 0 <= i < |revisions| ==> revisions[i].call != call
  {
    if revisions == [] then None
    else
      var before := FindRevision(revisions[..|revisions| - 1], call);
      if before.Some? then before
      else if revisions[|revisions| - 1].call == call then Some(|revisions| - 1) else None
  }

  function CallsOf(revisions: seq<Revision>): set<nat> {
    if revisions == [] then {} else CallsOf(revisions[..|revisions| - 1]) + {revisions[|revisions| - 1].call}
  }

  lemma {:induction false} FoundIff(revisions: seq<Revision>, call: nat)
    ensures FindRevision(revisions, call).Some? <==> call in CallsOf(revisions)
  {
    if revisions != [] {
      FoundIff(revisions[..|revisions| - 1], call);
    }
  }

  function ResultOf(revision: Revision): Result {
    Result(revision.doc, StatusFor(revision.op), revision.version, revision.content)
  }

  /** `_replay_result`. */
  function ReplayOf(db: Db, call: nat): Option<Result> {
    var found := FindRevision(db.revisions, call);
    if found.None? || db.revisions[found.value].doc !in db.docs then None
    else Some(ResultOf(db.revisions[found.value]))
  }

  predicate Active(task: Task) {
    !task.stage.Returned? && !task.stage.Refused?
  }

  predicate AtStage(s: Store, t: nat) {
    t < |s.tasks| && Active(s.tasks[t])
  }

  function WithStage(s: Store, t: nat, stage: Stage): Store
    requires t < |s.tasks|
  {
    s.(tasks := s.tasks[t := s.tasks[t].(stage := stage)])
  }

  /** What the read phase of update, delete and finalize makes of the row it finds. */
  function Loaded(db: Db, task: Task): Stage {
    if task.target !in db.docs || db.docs[task.target].analysis != task.analysis then Refused(NotFound)
    else
      var doc := db.docs[task.target];
      if doc.status.Deleted? then Refused(IsDeleted)
      else if doc.status.Finalized? then Refused(IsFinalized)
      else if doc.version != task.expected then Refused(Conflict)
      else if task.op.Update? then Opened(task.target, task.expected + 1)
      else Ready(task.target, task.expected + 1, doc.content)
  }

  function Stored(db: Db, ref: Ref, text: string): Db {
    db.(objects := db.objects[ref := text])
  }

  function Recorded(db: Db, doc: Doc, revision: Revision): Db {
    db.(docs := db.docs[revision.doc := doc], revisions := db.revisions + [revision])
  }

  function RevisionOf(task: Task): Revision
    requires task.stage.Ready?
  {
    Revision(task.stage.doc, task.stage.version, task.call, task.op, task.stage.content)
  }

  /** The compare-and-set of the repository: version and draft status are checked again. */
  predicate CanWrite(db: Db, task: Task)
    requires task.stage.Ready?
  {
    task.op.Create? ||
    (task.stage.doc in db.docs && db.docs[task.stage.doc].version == task.expected &&
     db.docs[task.stage.doc].status.Draft?)
  }

  /** The row that the write leaves behind. */
  function RowOf(db: Db, task: Task): Doc
    requires task.stage.Ready?
  {
    Doc(if task.stage.doc in db.docs then db.docs[task.stage.doc].analysis else task.analysis,
        StatusFor(task.op), task.stage.version, task.stage.content)
  }

  function Written(s: Store, t: nat): Store
    requires t < |s.tasks| && s.tasks[t].stage.Ready?
  {
    var task := s.tasks[t];
    if !CanWrite(s.db, task) then WithStage(s, t, Refused(Conflict))
    else if !Unrecorded(s.db, task.call) then WithStage(s, t, Refused(Duplicate))
    else
      WithStage(s.(db := Recorded(s.db, RowOf(s.db, task), RevisionOf(task))), t, Returned(ResultOf(RevisionOf(task))))
  }

  function NewTask(env: Env, call: nat): Task {
    var a := env.args(call);
    Task(call, a.op, a.analysis, a.target, a.expected, a.text, Begun)
  }

  function Act(env: Env, s: Store, move: Move): Store {
    match move
    case Submit(call) => s.(tasks := s.tasks + [NewTask(env, call)])
    case CheckReplay(t) =>
      if AtStage(s, t) && s.tasks[t].stage.Begun?
      then
        var replay := ReplayOf(s.db, s.tasks[t].call);
        WithStage(s, t, if replay.Some? then Returned(replay.value) else Checked)
      else s
    case Draw(t, id) =>
      if AtStage(s, t) && s.tasks[t].stage.Checked? && s.tasks[t].op.Create? && id !in s.db.drawn
      then WithStage(s.(db := s.db.(drawn := s.db.drawn + {id})), t, Opened(id, 1)) else s
    case Load(t) =>
      if AtStage(s, t) && s.tasks[t].stage.Checked? && !s.tasks[t].op.Create?
      then WithStage(s, t, Loaded(s.db, s.tasks[t])) else s
    case Put(t) =>
      if AtStage(s, t) && s.tasks[t].stage.Opened?
      then
        var task := s.tasks[t];
        var ref := Ref(task.stage.doc, task.stage.version, task.call);
        WithStage(s.(db := Stored(s.db, ref, task.text)), t,
                  Ready(task.stage.doc, task.stage.version, Content(ref, env.digest(task.text), |task.text|)))
      else s
    case Write(t) => if AtStage(s, t) && s.tasks[t].stage.Ready? then Written(s, t) else s
  }

  function Run(env: Env, s: Store, moves: seq<Move>): Store {
    if moves == [] then s else Act(env, Run(env, s, moves[..|moves| - 1]), moves[|moves| - 1])
  }

  function EmptyStore(): Store {
    Store(Db(map[], [], map[], {}), [])
  }

  // --- Rows and revisions ---

  predicate HasVersion(revisions: seq<Revision>, d: nat, v: nat) {
    exists i :: 0 <= i < |revisions| && revisions[i].doc == d && revisions[i].version == v
  }

  /** A document's revisions are versions 1..current_version, each once and in order. */
  predicate VersionsExact(docs: map<nat, Doc>, revisions: seq<Revision>) {
    (forall i :: 0 <= i < |revisions| ==>
      revisions[i].doc in docs && 1 <= revisions[i].version <= docs[revisions[i].doc].version) &&
    (forall i, j :: 0 <= i < j < |revisions| && revisions[i].doc == revisions[j].doc ==>
      revisions[i].version < revisions[j].version) &&
    (forall d :: d in docs ==> docs[d].version >= 1) &&
    (forall d, v :: d in docs && 1 <= v <= docs[d].version ==> HasVersion(revisions, d, v))
  }

  /** The row repeats its latest revision, and only the latest may be a finalize or delete. */
  predicate RowsExact(docs: map<nat, Doc>, revisions: seq<Revision>) {
    forall i :: 0 <= i < |revisions| && revisions[i].doc in docs ==>
      var r, doc := revisions[i], docs[revisions[i].doc];
      if r.version == doc.version then doc.status == StatusFor(r.op) && doc.content == r.content
      else StatusFor(r.op).Draft?
  }

  predicate CallsOnce(revisions: seq<Revision>) {
    forall i, j :: 0 <= i < j < |revisions| ==> revisions[i].call != revisions[j].call
  }

  predicate TablesInv(docs: map<nat, Doc>, revisions: seq<Revision>) {
    VersionsExact(docs, revisions) && RowsExact(docs, revisions) && CallsOnce(revisions)
  }

  /** The next version of a draft, or the first of a new document. */
  predicate Follows(docs: map<nat, Doc>, revision: Revision) {
    if revision.doc in docs
    then docs[revision.doc].status.Draft? && revision.version == docs[revision.doc].version + 1
    else revision.version == 1
  }

  lemma RecordKeepsVersions(docs: map<nat, Doc>, revisions: seq<Revision>, doc: Doc, r: Revision)
    requires VersionsExact(docs, revisions) && Follows(docs, r) && doc.version == r.version
    ensures VersionsExact(docs[r.doc := doc], revisions + [r])
  {
    var docs', revisions' := docs[r.doc := doc], revisions + [r];
    forall d, v | d in docs' && 1 <= v <= docs'[d].version
      ensures HasVersion(revisions', d, v)
    {
      if d == r.doc && v == r.version {
        assert revisions'[|revisions|] == r;
      } else {
        assert HasVersion(revisions, d, v);
        var i :| 0 <= i < |revisions| && revisions[i].doc == d && revisions[i].version == v;
        assert revisions'[i] == revisions[i];
      }
    }
  }

  lemma {:induction false} CallsInclude(revisions: seq<Revision>, i: nat)
    requires i < |revisions|
    ensures revisions[i].call in CallsOf(revisions)
  {
    if i < |revisions| - 1 {
      CallsInclude(revisions[..|revisions| - 1], i);
    }
  }

  lemma RecordKeepsCalls(revisions: seq<Revision>, r: Revision)
    requires CallsOnce(revisions) && r.call !in CallsOf(revisions)
    ensures CallsOnce(revisions + [r])
  {
    forall i | 0 <= i < |revisions|
      ensures revisions[i].call != r.call
    {
      CallsInclude(revisions, i);
    }
  }

  lemma RecordKeepsTables(docs: map<nat, Doc>, revisions: seq<Revision>, doc: Doc, r: Revision)
    requires TablesInv(docs, revisions) && Follows(docs, r) && r.call !in CallsOf(revisions)
    requires doc.version == r.version && doc.status == StatusFor(r.op) && doc.content == r.content
    ensures TablesInv(docs[r.doc := doc], revisions + [r])
  {
    RecordKeepsVersions(docs, revisions, doc, r);
    RecordKeepsCalls(revisions, r);
  }

  // --- Stored content ---

  predicate Matches(env: Env, objects: map<Ref, string>, content: Content) {
    content.ref in objects && env.digest(objects[content.ref]) == content.hash && |objects[content.ref]| == content.size
  }

  /** Every revision's content is stored under its key and has its hash and size. */
  predicate ContentsMatch(env: Env, objects: map<Ref, string>, revisions: seq<Revision>) {
    forall i :: 0 <= i < |revisions| ==> Matches(env, objects, revisions[i].content)
  }

  /** What is stored under a key is the text of the key's tool call. */
  predicate TextsFit(env: Env, objects: map<Ref, string>) {
    forall ref :: ref in objects ==> objects[ref] == env.args(ref.call).text
  }

  // --- Calls in progress ---

  predicate Unrecorded(db: Db, call: nat) {
    call !in CallsOf(db.revisions)
  }

  predicate TaskInv(env: Env, db: Db, task: Task) {
    task.text == env.args(task.call).text &&
    match task.stage
    case Opened(doc, version) => TargetInv(db, task, doc, version) && (task.op.Create? || task.op.Update?)
    case Ready(doc, version, content) => TargetInv(db, task, doc, version) && Matches(env, db.objects, content)
    case Returned(result) => ReplayOf(db, task.call) == Some(result)
    case _ => true
  }

  /** A create holds a drawn id that no row has; the others aim at an existing document. */
  predicate TargetInv(db: Db, task: Task, doc: nat, version: nat) {
    if task.op.Create? then doc in db.drawn && doc !in db.docs && version == 1
    else doc == task.target && doc in db.docs && version == task.expected + 1
  }

  predicate Holding(task: Task) {
    task.op.Create? && (task.stage.Opened? || task.stage.Ready?)
  }

  /** Creates in progress have their own document ids, even of the same tool call. */
  predicate Apart(a: Task, b: Task) {
    Holding(a) && Holding(b) ==> a.stage.doc != b.stage.doc
  }

  predicate TasksInv(env: Env, db: Db, tasks: seq<Task>) {
    (forall t :: 0 <= t < |tasks| ==> TaskInv(env, db, tasks[t])) &&
    (forall t, u :: 0 <= t < u < |tasks| ==> Apart(tasks[t], tasks[u]))
  }

  predicate DbInv(env: Env, db: Db) {
    TablesInv(db.docs, db.revisions) && ContentsMatch(env, db.objects, db.revisions) && TextsFit(env, db.objects) &&
    forall d :: d in db.docs ==> d in db.drawn
  }

  predicate StoreInv(env: Env, s: Store) {
    DbInv(env, s.db) && TasksInv(env, s.db, s.tasks)
  }

  // --- What each step keeps ---

  lemma FindAppended(revisions: seq<Revision>, r: Revision, call: nat)
    ensures FindRevision(revisions + [r], call) ==
            if FindRevision(revisions, call).Some? then FindRevision(revisions, call)
            else if r.call == call then Some(|revisions|) else None
  {
  }

  /** A step of task `t` that leaves the others their invariant. */
  lemma TasksFromActor(env: Env, s: Store, s': Store, t: nat)
    requires TasksInv(env, s.db, s.tasks) && t < |s.tasks| == |s'.tasks|
    requires forall u :: 0 <= u < |s.tasks| && u != t ==> s'.tasks[u] == s.tasks[u] && TaskInv(env, s'.db, s.tasks[u])
    requires TaskInv(env, s'.db, s'.tasks[t])
    requires s'.tasks[t].op == s.tasks[t].op
    requires Holding(s'.tasks[t]) ==>
               if Holding(s.tasks[t]) then s'.tasks[t].stage.doc == s.tasks[t].stage.doc
               else s'.tasks[t].stage.doc !in s.db.drawn
    ensures TasksInv(env, s'.db, s'.tasks)
  {
  }

  /** Storing content again under its key stores the same text. */
  lemma PutKeepsOthers(env: Env, db: Db, ref: Ref, task: Task)
    requires TaskInv(env, db, task) && TextsFit(env, db.objects)
    ensures TaskInv(env, Stored(db, ref, env.args(ref.call).text), task)
  {
  }

  lemma PutKeepsDb(env: Env, db: Db, ref: Ref)
    requires DbInv(env, db)
    ensures DbInv(env, Stored(db, ref, env.args(ref.call).text))
  {
  }

  lemma WrittenIsReplayed(db: Db, doc: Doc, r: Revision)
    requires Unrecorded(db, r.call)
    ensures ReplayOf(Recorded(db, doc, r), r.call) == Some(ResultOf(r))
  {
    FoundIff(db.revisions, r.call);
    FindAppended(db.revisions, r, r.call);
  }

  lemma PutKeepsInv(env: Env, s: Store, t: nat)
    requires StoreInv(env, s)
    ensures StoreInv(env, Act(env, s, Put(t)))
  {
    var s' := Act(env, s, Put(t));
    if AtStage(s, t) && s.tasks[t].stage.Opened? {
      var task := s.tasks[t];
      var ref := Ref(task.stage.doc, task.stage.version, task.call);
      assert TaskInv(env, s.db, task);
      PutKeepsDb(env, s.db, ref);
      forall u | 0 <= u < |s.tasks| && u != t
        ensures TaskInv(env, s'.db, s.tasks[u])
      {
        PutKeepsOthers(env, s.db, ref, s.tasks[u]);
      }
      TasksFromActor(env, s, s', t);
    }
  }

  lemma WriteKeepsDb(env: Env, db: Db, task: Task)
    requires DbInv(env, db) && task.stage.Ready? && TaskInv(env, db, task) && CanWrite(db, task) &&
             Unrecorded(db, task.call)
    ensures DbInv(env, Recorded(db, RowOf(db, task), RevisionOf(task)))
  {
    RecordKeepsTables(db.docs, db.revisions, RowOf(db, task), RevisionOf(task));
  }

  /** Two tasks of the store, whichever comes first. */
  lemma TasksApart(env: Env, db: Db, tasks: seq<Task>, t: nat, u: nat)
    requires TasksInv(env, db, tasks) && t < |tasks| && u < |tasks| && t != u
    ensures Apart(tasks[t], tasks[u])
  {
  }

  lemma WriteKeepsOthers(env: Env, db: Db, task: Task, other: Task)
    requires task.stage.Ready? && TaskInv(env, db, task) && TaskInv(env, db, other) && Apart(task, other)
    requires Unrecorded(db, task.call)
    ensures TaskInv(env, Recorded(db, RowOf(db, task), RevisionOf(task)), other)
  {
  }

  lemma WriteKeepsInv(env: Env, s: Store, t: nat)
    requires StoreInv(env, s) && t < |s.tasks| && s.tasks[t].stage.Ready?
    ensures StoreInv(env, Written(s, t))
  {
    var task, s' := s.tasks[t], Written(s, t);
    if CanWrite(s.db, task) && Unrecorded(s.db, task.call) {
      WriteKeepsDb(env, s.db, task);
      WrittenIsReplayed(s.db, RowOf(s.db, task), RevisionOf(task));
      forall u | 0 <= u < |s.tasks| && u != t
        ensures TaskInv(env, s'.db, s.tasks[u])
      {
        TasksApart(env, s.db, s.tasks, t, u);
        WriteKeepsOthers(env, s.db, task, s.tasks[u]);
      }
    }
    TasksFromActor(env, s, s', t);
  }

  lemma DrawKeepsInv(env: Env, s: Store, t: nat, id: nat)
    requires StoreInv(env, s)
    ensures StoreInv(env, Act(env, s, Draw(t, id)))
  {
    var s' := Act(env, s, Draw(t, id));
    if s' != s {
      TasksFromActor(env, s, s', t);
    }
  }

  /** Reading changes no row. */
  lemma ReadKeepsInv(env: Env, s: Store, move: Move)
    requires StoreInv(env, s) && (move.CheckReplay? || move.Load?)
    ensures StoreInv(env, Act(env, s, move))
  {
    var s' := Act(env, s, move);
    if s' != s {
      FoundIff(s.db.revisions, s.tasks[move.t].call);
      if move.Load? {
        LoadedFits(env, s.db, s.tasks[move.t]);
      }
      TasksFromActor(env, s, s', move.t);
    }
  }

  /** A loaded draft's content is on record. */
  lemma LoadedFits(env: Env, db: Db, task: Task)
    requires DbInv(env, db) && TaskInv(env, db, task) && task.stage.Checked? && !task.op.Create?
    ensures TaskInv(env, db, task.(stage := Loaded(db, task)))
  {
    if Loaded(db, task).Ready? {
      var doc := db.docs[task.target];
      assert HasVersion(db.revisions, task.target, doc.version);
      var i :| 0 <= i < |db.revisions| && db.revisions[i].doc == task.target && db.revisions[i].version == doc.version;
      assert doc.content == db.revisions[i].content;
    }
  }

  lemma SubmitKeepsInv(env: Env, s: Store, move: Move)
    requires StoreInv(env, s) && move.Submit?
    ensures StoreInv(env, Act(env, s, move))
  {
  }

  lemma ActKeepsStoreInv(env: Env, s: Store, move: Move)
    requires StoreInv(env, s)
    ensures StoreInv(env, Act(env, s, move))
  {
    match move
    case Submit(_) => SubmitKeepsInv(env, s, move);
    case CheckReplay(_) => ReadKeepsInv(env, s, move);
    case Load(_) => ReadKeepsInv(env, s, move);
    case Draw(t, id) => DrawKeepsInv(env, s, t, id);
    case Put(t) => PutKeepsInv(env, s, t);
    case Write(t) => if AtStage(s, t) && s.tasks[t].stage.Ready? { WriteKeepsInv(env, s, t); }
  }

  /** In every interleaving of service calls: revisions are exactly versions 1..current_version, rows
      repeat their latest revision, stored content matches its hash and size, and a call that returned
      a result would be replayed with that very result. */
  lemma {:induction false} RunKeepsStoreInv(env: Env, moves: seq<Move>)
    ensures StoreInv(env, Run(env, EmptyStore(), moves))
  {
    if moves != [] {
      var n := |moves| - 1;
      RunKeepsStoreInv(env, moves[..n]);
      ActKeepsStoreInv(env, Run(env, EmptyStore(), moves[..n]), moves[n]);
    }
  }

  // --- What stays for good ---

  /** From `db` to `after` no revision changed, no ended document changed, and every recorded content
      is the same text. */
  predicate Preserves(db: Db, after: Db) {
    db.revisions <= after.revisions &&
    (forall d :: d in db.docs ==> d in after.docs && (!db.docs[d].status.Draft? ==> after.docs[d] == db.docs[d])) &&
    (forall i :: 0 <= i < |db.revisions| && db.revisions[i].content.ref in db.objects ==>
      db.revisions[i].content.ref in after.objects &&
      after.objects[db.revisions[i].content.ref] == db.objects[db.revisions[i].content.ref])
  }

  lemma ActPreserves(env: Env, s: Store, move: Move)
    requires StoreInv(env, s)
    ensures Preserves(s.db, Act(env, s, move).db)
  {
    if move.Put? && AtStage(s, move.t) {
      assert TaskInv(env, s.db, s.tasks[move.t]);
    }
    if move.Write? && AtStage(s, move.t) {
      assert TaskInv(env, s.db, s.tasks[move.t]);
    }
  }

  lemma PreservesTrans(a: Db, b: Db, c: Db)
    requires Preserves(a, b) && Preserves(b, c)
    ensures Preserves(a, c)
  {
  }

  /** Finalized and deleted absorb, and recorded history and content never change, in any run. */
  lemma {:induction false} HistoryIsForever(env: Env, s: Store, moves: seq<Move>)
    requires StoreInv(env, s)
    ensures StoreInv(env, Run(env, s, moves)) && Preserves(s.db, Run(env, s, moves).db)
  {
    if moves != [] {
      var n := |moves| - 1;
      HistoryIsForever(env, s, moves[..n]);
      var before := Run(env, s, moves[..n]);
      ActKeepsStoreInv(env, before, moves[n]);
      ActPreserves(env, before, moves[n]);
      PreservesTrans(s.db, before.db, Run(env, s, moves).db);
    }
  }

  lemma {:induction false} FindInPrefix(revisions: seq<Revision>, more: seq<Revision>, call: nat)
    requires revisions <= more && FindRevision(revisions, call).Some?
    ensures FindRevision(more, call) == FindRevision(revisions, call)
    decreases |more|
  {
    if |more| == |revisions| {
      assert more == revisions;
    } else {
      FindInPrefix(revisions, more[..|more| - 1], call);
    }
  }

  /** Replaying a recorded tool call returns its original id, status, version, key, hash and size,
      whatever happened since. */
  lemma {:induction false} ReplayIsStable(env: Env, s: Store, moves: seq<Move>, call: nat)
    requires StoreInv(env, s) && ReplayOf(s.db, call).Some?
    ensures ReplayOf(Run(env, s, moves).db, call) == ReplayOf(s.db, call)
  {
    HistoryIsForever(env, s, moves);
    FindInPrefix(s.db.revisions, Run(env, s, moves).db.revisions, call);
  }

  /** At most one call succeeds per expected version: in every run, results of different tool calls
      never share document and version. */
  lemma OneSuccessPerVersion(env: Env, moves: seq<Move>, t: nat, u: nat)
    ensures var tasks := Run(env, EmptyStore(), moves).tasks;
            t < |tasks| && u < |tasks| && tasks[t].call != tasks[u].call &&
            tasks[t].stage.Returned? && tasks[u].stage.Returned? ==>
              (tasks[t].stage.result.doc != tasks[u].stage.result.doc ||
               tasks[t].stage.result.version != tasks[u].stage.result.version)
  {
    RunKeepsStoreInv(env, moves);
    var s := Run(env, EmptyStore(), moves);
    if t < |s.tasks| && u < |s.tasks| {
      assert TaskInv(env, s.db, s.tasks[t]) && TaskInv(env, s.db, s.tasks[u]);
    }
  }

  // --- The repository and one uninterrupted call ---

  datatype Outcome = Success(result: Result) | Failure(error: Error)

  class Service {
    const digest: string -> nat
    var docs: map<nat, Doc>
    var revisions: seq<Revision>
    var objects: map<Ref, string>
    var drawn: set<nat>

    ghost function Model(): Db
      reads this
    {
      Db(docs, revisions, objects, drawn)
    }

    constructor (digest: string -> nat)
      ensures this.digest == digest && Model() == EmptyStore().db
    {
      this.digest := digest;
      docs, revisions, objects, drawn := map[], [], map[], {};
    }

    /** `find_revision_by_tool_call`: the first match in insertion order. */
    method FindByToolCall(call: nat) returns (found: Option<nat>)
      ensures found == FindRevision(revisions, call)
    {
      for i := 0 to |revisions|
        invariant FindRevision(revisions[..i], call).None?
      {
        assert revisions[..i + 1][..i] == revisions[..i];
        if revisions[i].call == call {
          FindInPrefix(revisions[..i + 1], revisions, call);
          return Some(i);
        }
      }
      assert revisions[..|revisions|] == revisions;
      found := None;
    }

    method ReplayResult(call: nat) returns (result: Option<Result>)
      ensures result == ReplayOf(Model(), call)
    {
      var found := FindByToolCall(call);
      if found.None? || revisions[found.value].doc !in docs {
        return None;
      }
      var r := revisions[found.value];
      result := Some(Result(r.doc, StatusFor(r.op), r.version, r.content));
    }

    /** `update_document_with_revision`. */
    method UpdateWithRevision(expected: nat, r: Revision) returns (updated: bool)
      requires r.doc in docs
      modifies this
      ensures updated <==> old(docs[r.doc].version) == expected && old(docs[r.doc].status).Draft?
      ensures Model() == if updated
                         then Recorded(old(Model()),
                                       Doc(old(docs[r.doc].analysis), StatusFor(r.op), r.version, r.content), r)
                         else old(Model())
    {
      var doc := docs[r.doc];
      if doc.version != expected || !doc.status.Draft? {
        return false;
      }
      docs := docs[r.doc := doc.(status := StatusFor(r.op), version := r.version, content := r.content)];
      revisions := revisions + [r];
      updated := true;
    }

    /** `update`, `delete` and `finalize`. */
    method Mutate(call: nat, op: Op, analysis: nat, target: nat, expected: nat, text: string) returns (outcome: Outcome)
      requires !op.Create?
      modifies this
      ensures ReplayOf(old(Model()), call).Some? ==>
                outcome == Success(ReplayOf(old(Model()), call).value) && Model() == old(Model())
      ensures ReplayOf(old(Model()), call).None? ==>
                var same := Model() == old(Model());
                if target !in old(docs) || old(docs)[target].analysis != analysis
                then outcome == Failure(NotFound) && same
                else if old(docs)[target].status.Deleted? then outcome == Failure(IsDeleted) && same
                else if old(docs)[target].status.Finalized? then outcome == Failure(IsFinalized) && same
                else if old(docs)[target].version != expected then outcome == Failure(Conflict) && same
                else
                  var ref := Ref(target, expected + 1, call);
                  var content := if op.Update? then Content(ref, digest(text), |text|) else old(docs)[target].content;
                  var status := match op case Delete => Deleted case Finalize => Finalized case _ => Draft;
                  outcome == Success(Result(target, status, expected + 1, content)) &&
                  docs == old(docs)[target := Doc(analysis, status, expected + 1, content)] &&
                  revisions == old(revisions) + [Revision(target, expected + 1, call, op, content)] &&
                  objects == (if op.Update? then old(objects)[ref := text] else old(objects)) && drawn == old(drawn)
    {
      var replay := ReplayResult(call);
      if replay.Some? {
        return Success(replay.value);
      }
      if target !in docs || docs[target].analysis != analysis {
        return Failure(NotFound);
      }
      var doc := docs[target];
      if doc.status.Deleted? {
        return Failure(IsDeleted);
      }
      if doc.status.Finalized? {
        return Failure(IsFinalized);
      }
      if doc.version != expected {
        return Failure(Conflict);
      }
      var content := doc.content;
      if op.Update? {
        content := Content(Ref(target, expected + 1, call), digest(text), |text|);
        objects := objects[content.ref := text];
      }
      var r := Revision(target, expected + 1, call, op, content);
      var updated := UpdateWithRevision(expected, r);
      assert updated;
      outcome := Success(ResultOf(r));
    }
  }
}
