/** A batch together with the analyses it dispatches: the scheduler writes AnalysisRequested for each
    item it dispatches and learns about endings only from events that the outbox delivers, late,
    repeated and in any order, or not at all once they are dead-lettered. */
module BatchWorld {
  import opened Wrappers
  import Batch
  import Platform
  import Agreement
  import Endings
  import Causes

  /** `dead` holds the outbox rows whose last delivery attempt to the scheduler has failed. */
  datatype World = World(db: Platform.Db, batch: Batch.State, dead: set<nat>)

  /** `DeliverEnd(i)` hands outbox row `i` to the scheduler, any number of times; `DeadLetter(i)` sends
      the row to the dead-letter topic, which nobody reads.  No worker is subscribed to SnapshotFailed,
      so there is no move that delivers it. */
  datatype Move =
    | Transaction(step: Platform.Step)
    | Schedule
    | DeliverEnd(i: nat)
    | DeadLetter(i: nat)

  function OutcomeOf(status: Platform.AnalysisStatus): Option<Batch.Outcome> {
    match status
    case Completed => Some(Batch.EndCompleted)
    case Failed => Some(Batch.EndFailed)
    case Cancelled => Some(Batch.EndCancelled)
    case _ => None
  }

  predicate IsEnd(w: World, i: nat) {
    i < |w.db.outbox| && w.db.outbox[i].AnalysisEnded? && OutcomeOf(w.db.outbox[i].status).Some?
  }

  function EndStep(w: World, i: nat): Batch.Step
    requires IsEnd(w, i)
  {
    Batch.Terminal(w.db.outbox[i].analysis, OutcomeOf(w.db.outbox[i].status).value)
  }

  /** The AnalysisRequested events of the items `ids`. */
  function RequestsFor(items: seq<Batch.Item>, ids: seq<nat>): seq<Platform.Event> {
    if ids == [] then []
    else
      var n := |ids| - 1;
      RequestsFor(items, ids[..n]) +
      if ids[n] < |items| then [Platform.AnalysisRequested(items[ids[n]].analysis)] else []
  }

  /** The scheduler's transaction leaves batch `b` and the events of what it dispatched. */
  function Scheduled(w: World, b: Batch.State): World {
    var added := if w.batch.requests <= b.requests then b.requests[|w.batch.requests|..] else [];
    w.(db := Platform.Publish(w.db, RequestsFor(b.items, added)), batch := b)
  }

  /** The analysis worker moves the item on in the transaction that takes the analysis out of queued. */
  predicate TakesUp(db: Platform.Db, step: Platform.Step) {
    Causes.Caused(db, step) && step.Life? && step.life.HandleAnalysisRequested? &&
    step.life.a < |db.analyses| && db.analyses[step.life.a].Queued?
  }

  function Act(w: World, move: Move): World {
    match move
    case Transaction(step) =>
      w.(db := Causes.Do(w.db, step),
         batch := if TakesUp(w.db, step) then Batch.Apply(w.batch, Batch.Requested(step.life.a)) else w.batch)
    case Schedule => Scheduled(w, Batch.Apply(w.batch, Batch.Schedule))
    case DeliverEnd(i) =>
      if IsEnd(w, i) && i !in w.dead then Scheduled(w, Batch.Apply(w.batch, EndStep(w, i))) else w
    case DeadLetter(i) => if IsEnd(w, i) then w.(dead := w.dead + {i}) else w
  }

  function Run(w: World, moves: seq<Move>): World {
    if moves == [] then w else Act(Run(w, moves[..|moves| - 1]), moves[|moves| - 1])
  }

  /** The `n` analyses that create_batch inserts. */
  function Inserted(db: Platform.Db, n: nat): Platform.Db {
    if n == 0 then db else Platform.ApplyLife(Inserted(db, n - 1), Platform.CreateAnalysis(false))
  }

  function NewIds(db: Platform.Db, n: nat): (r: seq<nat>)
    ensures |r| == n && forall i :: 0 <= i < n ==> r[i] == |db.analyses| + i
  {
    seq(n, i requires 0 <= i < n => |db.analyses| + i)
  }

  /** A batch of `n` new analyses, submitted after the transactions `before`. */
  function Submitted(before: seq<Platform.Step>, n: nat, maxParallel: int): World {
    var db := Causes.DoAll(Platform.Initial(), before);
    World(Inserted(db, n), Batch.NewBatch(NewIds(db, n), maxParallel), {})
  }

  // --- The invariant ---

  predicate SameEnding(item: Batch.ItemStatus, analysis: Platform.AnalysisStatus) {
    match item
    case Completed => analysis.Completed?
    case Failed => analysis.Failed?
    case Cancelled => analysis.Cancelled?
    case _ => true
  }

  /** An ended item has the status of its analysis, and an outbox row said so. */
  predicate ItemTold(db: Platform.Db, item: Batch.Item) {
    item.analysis < |db.analyses| &&
    (Batch.Ended(item.status) ==>
      SameEnding(item.status, db.analyses[item.analysis]) &&
      Platform.AnalysisEnded(item.analysis, db.analyses[item.analysis]) in db.outbox)
  }

  predicate ItemsTold(db: Platform.Db, items: seq<Batch.Item>) {
    forall i :: 0 <= i < |items| ==> ItemTold(db, items[i])
  }

  /** An item's analysis was requested exactly if the item was dispatched. */
  predicate ItemsLinked(outbox: seq<Platform.Event>, items: seq<Batch.Item>) {
    forall i :: 0 <= i < |items| ==> (items[i].dispatched <==> Platform.AnalysisRequested(items[i].analysis) in outbox)
  }

  predicate Distinct(items: seq<Batch.Item>) {
    forall i, j :: 0 <= i < j < |items| ==> items[i].analysis != items[j].analysis
  }

  ghost predicate WorldInv(w: World) {
    Endings.EndingsInv(w.db) && Causes.AllInStep(w.db) && Batch.BatchInv(w.batch) &&
    ItemsTold(w.db, w.batch.items) && ItemsLinked(w.db.outbox, w.batch.items) && Distinct(w.batch.items) &&
    DeadFits(w.db, w.dead)
  }

  /** Only terminal events are dead-lettered here. */
  predicate DeadFits(db: Platform.Db, dead: set<nat>) {
    forall k :: k in dead ==> k < |db.outbox| && db.outbox[k].AnalysisEnded?
  }

  // --- Transactions ---

  lemma TablesKeepItemsTold(db: Platform.Db, step: Platform.Step, items: seq<Batch.Item>)
    requires Endings.EndingsInv(db) && ItemsTold(db, items)
    ensures ItemsTold(Platform.Apply(db, step), items)
  {
    Endings.StepIsEndingMove(db, step);
  }

  /** Only creating an analysis directly writes AnalysisRequested, and that analysis is new. */
  lemma TablesRequestNone(db: Platform.Db, step: Platform.Step, a: nat)
    requires a < |db.analyses|
    ensures Platform.AnalysisRequested(a) in Platform.Apply(db, step).outbox <==>
            Platform.AnalysisRequested(a) in db.outbox
  {
    match step
    case Life(s) => Platform.LifeFrame(db, s);
    case Turning(s) => Platform.TurnFrame(db, s);
    case Calling(s) => Platform.CallFrame(db, s);
  }

  lemma RequestedItemStays(db: Platform.Db, b: Batch.State, a: nat)
    requires ItemsTold(db, b.items) && ItemsLinked(db.outbox, b.items) && Distinct(b.items)
    ensures var items := Batch.Apply(b, Batch.Requested(a)).items;
            ItemsTold(db, items) && ItemsLinked(db.outbox, items) && Distinct(items)
  {
  }

  lemma TransactionKeepsInv(w: World, step: Platform.Step)
    requires WorldInv(w)
    ensures WorldInv(Act(w, Transaction(step)))
  {
    if Causes.Caused(w.db, step) {
      var after := Platform.Apply(w.db, step);
      Causes.DoKeepsStep(w.db, step);
      Causes.DoKeepsEndings(w.db, step);
      Endings.StepIsEndingMove(w.db, step);
      TablesKeepItemsTold(w.db, step, w.batch.items);
      forall i | 0 <= i < |w.batch.items|
        ensures w.batch.items[i].dispatched <==> Platform.AnalysisRequested(w.batch.items[i].analysis) in after.outbox
      {
        TablesRequestNone(w.db, step, w.batch.items[i].analysis);
      }
      if TakesUp(w.db, step) {
        RequestedItemStays(after, w.batch, step.life.a);
        Batch.StepKeepsBatchInv(w.batch, Batch.Requested(step.life.a));
      }
    }
  }

  // --- Scheduling ---

  lemma {:induction false} RequestsForExactly(items: seq<Batch.Item>, ids: seq<nat>, e: Platform.Event)
    ensures e in RequestsFor(items, ids) <==>
            exists k :: 0 <= k < |ids| && ids[k] < |items| && e == Platform.AnalysisRequested(items[ids[k]].analysis)
  {
    if ids != [] {
      var n := |ids| - 1;
      RequestsForExactly(items, ids[..n], e);
      if k :| 0 <= k < n && ids[k] < |items| && e == Platform.AnalysisRequested(items[ids[k]].analysis) {
        assert ids[..n][k] == ids[k];
      }
    }
  }

  /** Requests change no status and are no endings. */
  lemma RequestsKeepEndings(db: Platform.Db, events: seq<Platform.Event>)
    requires Endings.EndingsInv(db) && Causes.AllInStep(db)
    requires forall k :: 0 <= k < |events| ==> events[k].AnalysisRequested? && events[k].analysis < |db.analyses|
    ensures Endings.EndingsInv(Platform.Publish(db, events)) && Causes.AllInStep(Platform.Publish(db, events))
  {
    var after := Platform.Publish(db, events);
    assert forall e :: e in db.outbox ==> e in after.outbox;
    forall a: nat
      ensures Causes.InStep(after, a)
      ensures a < |db.analyses| ==> Endings.Driven(after, a)
    {
      assert Causes.InStep(db, a) && (a < |db.analyses| ==> Endings.Driven(db, a));
    }
  }

  /** A scheduling call ends no item, re-targets none and dispatches what it adds to the requests. */
  lemma ScheduleEndsNone(b: Batch.State)
    ensures var after := Batch.ScheduleBatch(b);
            |after.items| == |b.items| && b.requests <= after.requests &&
            forall i :: 0 <= i < |after.items| ==>
              after.items[i].analysis == b.items[i].analysis &&
              (Batch.Ended(after.items[i].status) <==> Batch.Ended(b.items[i].status)) &&
              (Batch.Ended(after.items[i].status) ==> after.items[i] == b.items[i])
  {
  }

  /** Between two states that keep the batch invariant, the newly dispatched items are the new requests. */
  lemma NewlyDispatched(b: Batch.State, c: Batch.State, i: nat)
    requires Batch.RequestsExact(b.items, b.requests) && Batch.RequestsExact(c.items, c.requests)
    requires b.requests <= c.requests && i < |b.items| == |c.items|
    ensures c.items[i].dispatched <==> b.items[i].dispatched || i in c.requests[|b.requests|..]
  {
    assert c.requests == b.requests + c.requests[|b.requests|..];
  }

  lemma ScheduledKeepsLinks(w: World, b: Batch.State)
    requires WorldInv(w) && Batch.BatchInv(b) && w.batch.requests <= b.requests && |b.items| == |w.batch.items|
    requires forall i :: 0 <= i < |b.items| ==> b.items[i].analysis == w.batch.items[i].analysis
    ensures ItemsLinked(Scheduled(w, b).db.outbox, b.items)
    ensures Endings.EndingsInv(Scheduled(w, b).db) && Causes.AllInStep(Scheduled(w, b).db)
  {
    var ids := b.requests[|w.batch.requests|..];
    var events := RequestsFor(b.items, ids);
    forall i | 0 <= i < |b.items|
      ensures b.items[i].dispatched <==> Platform.AnalysisRequested(b.items[i].analysis) in w.db.outbox + events
    {
      NewlyDispatched(w.batch, b, i);
      RequestsForExactly(b.items, ids, Platform.AnalysisRequested(b.items[i].analysis));
      if i in ids {
        var k :| 0 <= k < |ids| && ids[k] == i;
      }
    }
    forall k | 0 <= k < |events|
      ensures events[k].AnalysisRequested? && events[k].analysis < |w.db.analyses|
    {
      RequestsForExactly(b.items, ids, events[k]);
      assert events[k] in events;
    }
    RequestsKeepEndings(w.db, events);
  }

  lemma ItemsToldLater(db: Platform.Db, events: seq<Platform.Event>, items: seq<Batch.Item>)
    requires ItemsTold(db, items)
    ensures ItemsTold(Platform.Publish(db, events), items)
  {
  }

  lemma ScheduleKeepsTold(db: Platform.Db, b: Batch.State)
    requires ItemsTold(db, b.items) && Distinct(b.items)
    ensures ItemsTold(db, Batch.ScheduleBatch(b).items) && Distinct(Batch.ScheduleBatch(b).items)
  {
    ScheduleEndsNone(b);
  }

  lemma ScheduleKeepsInv(w: World)
    requires WorldInv(w)
    ensures WorldInv(Act(w, Schedule))
  {
    var b := Batch.Apply(w.batch, Batch.Schedule);
    Batch.StepKeepsBatchInv(w.batch, Batch.Schedule);
    ScheduleEndsNone(w.batch);
    ScheduledKeepsLinks(w, b);
    ScheduleKeepsTold(w.db, w.batch);
    ItemsToldLater(w.db, RequestsFor(b.items, b.requests[|w.batch.requests|..]), b.items);
  }

  /** The batch after the delivery of outbox row `i`, before its own requests are written. */
  lemma DeliveryFrame(w: World, i: nat)
    requires WorldInv(w) && IsEnd(w, i)
    ensures var b := Batch.Apply(w.batch, EndStep(w, i));
            |b.items| == |w.batch.items| && w.batch.requests <= b.requests && ItemsTold(w.db, b.items) &&
            (forall k :: 0 <= k < |b.items| ==> b.items[k].analysis == w.batch.items[k].analysis) &&
            (forall k :: 0 <= k < |b.items| ==>
              (Batch.Ended(b.items[k].status) <==>
                Batch.Ended(w.batch.items[k].status) || b.items[k].analysis == w.db.outbox[i].analysis))
  {
    var e := w.db.outbox[i];
    var found := Batch.FindItem(w.batch.items, e.analysis);
    if found.Some? {
      var ended := Batch.EndItem(w.batch, found.value, OutcomeOf(e.status).value);
      assert e in w.db.outbox;
      assert ItemsTold(w.db, ended.items);
      ScheduleEndsNone(Batch.Refresh(ended));
    }
  }

  lemma DeliveryKeepsInv(w: World, i: nat)
    requires WorldInv(w) && IsEnd(w, i) && i !in w.dead
    ensures WorldInv(Act(w, DeliverEnd(i)))
  {
    var b := Batch.Apply(w.batch, EndStep(w, i));
    DeliveryFrame(w, i);
    Batch.StepKeepsBatchInv(w.batch, EndStep(w, i));
    ScheduledKeepsLinks(w, b);
    ItemsToldLater(w.db, RequestsFor(b.items, b.requests[|w.batch.requests|..]), b.items);
  }

  lemma ActKeepsWorldInv(w: World, move: Move)
    requires WorldInv(w)
    ensures WorldInv(Act(w, move))
  {
    match move
    case Transaction(step) => TransactionKeepsInv(w, step);
    case Schedule => ScheduleKeepsInv(w);
    case DeliverEnd(i) => if IsEnd(w, i) && i !in w.dead { DeliveryKeepsInv(w, i); }
    case DeadLetter(_) =>
  }

  // --- Submission ---

  lemma {:induction false} InsertedFresh(db: Platform.Db, n: nat)
    requires Endings.EndingsInv(db) && Causes.AllInStep(db)
    ensures var after := Inserted(db, n);
            Endings.EndingsInv(after) && Causes.AllInStep(after) && after.outbox == db.outbox &&
            |after.analyses| == |db.analyses| + n
  {
    if n > 0 {
      InsertedFresh(db, n - 1);
      Causes.DoKeepsStep(Inserted(db, n - 1), Platform.Life(Platform.CreateAnalysis(false)));
      Causes.DoKeepsEndings(Inserted(db, n - 1), Platform.Life(Platform.CreateAnalysis(false)));
    }
  }

  lemma SubmittedInv(before: seq<Platform.Step>, n: nat, maxParallel: int)
    requires n >= 1 && maxParallel >= 1
    ensures WorldInv(Submitted(before, n, maxParallel))
  {
    var db := Causes.DoAll(Platform.Initial(), before);
    Causes.NothingBeforeRequest(before, 0);
    InsertedFresh(db, n);
    Batch.RunKeepsBatchInv(NewIds(db, n), maxParallel, []);
    var w := Submitted(before, n, maxParallel);
    forall i | 0 <= i < n
      ensures Platform.AnalysisRequested(w.batch.items[i].analysis) !in w.db.outbox
    {
      assert Causes.InStep(db, w.batch.items[i].analysis);
    }
  }

  /** In every run of workers, API calls, scheduling calls and deliveries, a terminal batch item has
      the status of its analysis, and exactly the dispatched items' analyses were requested. */
  lemma {:induction false} EndedItemsAreTruthful(before: seq<Platform.Step>, n: nat, maxParallel: int, moves: seq<Move>)
    requires n >= 1 && maxParallel >= 1
    ensures WorldInv(Run(Submitted(before, n, maxParallel), moves))
  {
    if moves == [] {
      SubmittedInv(before, n, maxParallel);
    } else {
      var k := |moves| - 1;
      EndedItemsAreTruthful(before, n, maxParallel, moves[..k]);
      ActKeepsWorldInv(Run(Submitted(before, n, maxParallel), moves[..k]), moves[k]);
    }
  }

  /** A batch reported as ended has every analysis ended, and it is reported as failed exactly when one
      of them failed. */
  lemma EndedBatchIsTruthful(w: World)
    requires WorldInv(w) && Batch.BatchEnded(w.batch.row.status)
    ensures forall i :: 0 <= i < |w.batch.items| ==> Platform.TerminalAnalysis(w.db.analyses[w.batch.items[i].analysis])
    ensures w.batch.row.status.BatchFailed? <==>
            exists i :: 0 <= i < |w.batch.items| && w.db.analyses[w.batch.items[i].analysis].Failed?
  {
    Batch.BatchReport(w.batch);
    if w.batch.row.status.BatchFailed? {
      var i :| 0 <= i < |w.batch.items| && w.batch.items[i].status.Failed?;
    }
  }

  // --- The bound on the analyses themselves ---

  predicate InProgress(db: Platform.Db, item: Batch.Item) {
    item.analysis < |db.analyses| && (db.analyses[item.analysis].Snapshotting? || db.analyses[item.analysis].Running?)
  }

  function CountInProgress(db: Platform.Db, items: seq<Batch.Item>): nat {
    if items == [] then 0
    else CountInProgress(db, items[..|items| - 1]) + if InProgress(db, items[|items| - 1]) then 1 else 0
  }

  /** A pending item's analysis has not been started: it is queued, or being cancelled. */
  lemma PendingItemIsUntouched(w: World, i: nat)
    requires WorldInv(w) && i < |w.batch.items| && w.batch.items[i].status.Pending?
    ensures var status := w.db.analyses[w.batch.items[i].analysis];
            status.Queued? || status.Cancelling? || status.Cancelled?
  {
    assert Causes.InStep(w.db, w.batch.items[i].analysis);
  }

  lemma {:induction false} ProgressNeedsSlot(db: Platform.Db, items: seq<Batch.Item>)
    requires forall i :: 0 <= i < |items| && InProgress(db, items[i]) ==> Batch.KindOf(items[i].status).ActiveKind?
    ensures CountInProgress(db, items) <= Batch.Count(items, Batch.ActiveKind)
  {
    if items != [] {
      ProgressNeedsSlot(db, items[..|items| - 1]);
    }
  }

  /** Not only the stored counter: at most max_parallel analyses of the batch are in progress. */
  lemma InProgressIsBounded(w: World)
    requires WorldInv(w)
    ensures CountInProgress(w.db, w.batch.items) <= w.batch.row.maxParallel
  {
    forall i | 0 <= i < |w.batch.items| && InProgress(w.db, w.batch.items[i])
      ensures Batch.KindOf(w.batch.items[i].status).ActiveKind?
    {
      if w.batch.items[i].status.Pending? {
        PendingItemIsUntouched(w, i);
      }
    }
    ProgressNeedsSlot(w.db, w.batch.items);
  }

  /** The limit and the items' analyses are those of the submission. */
  predicate SameSubmission(b: Batch.State, after: Batch.State) {
    after.row.maxParallel == b.row.maxParallel && |after.items| == |b.items| &&
    forall i :: 0 <= i < |b.items| ==> after.items[i].analysis == b.items[i].analysis
  }

  lemma ActKeepsSubmission(w: World, move: Move)
    ensures SameSubmission(w.batch, Act(w, move).batch)
  {
    match move
    case Transaction(step) =>
      if TakesUp(w.db, step) { Batch.StepKeepsSubmission(w.batch, Batch.Requested(step.life.a)); }
    case Schedule => Batch.StepKeepsSubmission(w.batch, Batch.Schedule);
    case DeliverEnd(i) => if IsEnd(w, i) { Batch.StepKeepsSubmission(w.batch, EndStep(w, i)); }
    case DeadLetter(_) =>
  }

  lemma {:induction false} RunKeepsSubmission(w: World, moves: seq<Move>)
    ensures SameSubmission(w.batch, Run(w, moves).batch)
  {
    if moves != [] {
      RunKeepsSubmission(w, moves[..|moves| - 1]);
      ActKeepsSubmission(Run(w, moves[..|moves| - 1]), moves[|moves| - 1]);
    }
  }

  /** In every run from a submission at most as many of the submitted analyses are in progress as were
      submitted as max_parallel. */
  lemma SubmittedLimitHolds(before: seq<Platform.Step>, n: nat, maxParallel: int, moves: seq<Move>)
    requires n >= 1 && maxParallel >= 1
    ensures var w := Run(Submitted(before, n, maxParallel), moves);
            CountInProgress(w.db, w.batch.items) <= maxParallel && |w.batch.items| == n &&
            forall i :: 0 <= i < n ==>
              w.batch.items[i].analysis == |Causes.DoAll(Platform.Initial(), before).analyses| + i
  {
    EndedItemsAreTruthful(before, n, maxParallel, moves);
    InProgressIsBounded(Run(Submitted(before, n, maxParallel), moves));
    RunKeepsSubmission(Submitted(before, n, maxParallel), moves);
  }

  // --- When a batch can end at all ---

  /** The terminal event of analysis `a` is dead-lettered. */
  predicate EndIsDead(w: World, a: nat) {
    exists k :: k in w.dead && k < |w.db.outbox| && w.db.outbox[k].AnalysisEnded? && w.db.outbox[k].analysis == a
  }

  /** No event will ever tell this item's ending: it failed in the snapshot worker, or the agent handler
      died between failing the analysis and writing AnalysisFailed, or the terminal event of the still
      open item was dead-lettered. */
  predicate Silent(w: World, i: nat) {
    i < |w.batch.items| &&
    (Platform.SnapshotFailed(w.batch.items[i].analysis) in w.db.outbox ||
     w.batch.items[i].analysis in w.db.lost ||
     (!Batch.Ended(w.batch.items[i].status) && EndIsDead(w, w.batch.items[i].analysis)))
  }

  predicate Stalled(w: World) {
    exists i :: 0 <= i < |w.batch.items| && Silent(w, i)
  }

  lemma StalledIsNotEnded(w: World)
    requires WorldInv(w) && Stalled(w)
    ensures !Batch.BatchEnded(w.batch.row.status)
  {
    var i :| 0 <= i < |w.batch.items| && Silent(w, i);
    Batch.BatchReport(w.batch);
    if Batch.Ended(w.batch.items[i].status) {
      assert Endings.NoEndedEvent(w.db, w.batch.items[i].analysis);
    }
  }

  /** Rows of the outbox, lost failures and dead rows stay, items keep their analyses. */
  predicate Carries(w: World, v: World) {
    w.db.outbox <= v.db.outbox && w.db.lost <= v.db.lost && w.dead <= v.dead &&
    |v.batch.items| == |w.batch.items| &&
    forall i :: 0 <= i < |w.batch.items| ==> v.batch.items[i].analysis == w.batch.items[i].analysis
  }

  lemma ActCarries(w: World, move: Move)
    requires WorldInv(w)
    ensures Carries(w, Act(w, move))
  {
    match move
    case Transaction(step) => Endings.StepIsEndingMove(w.db, step);
    case Schedule => ScheduleEndsNone(w.batch);
    case DeliverEnd(i) => if IsEnd(w, i) && i !in w.dead { DeliveryFrame(w, i); }
    case DeadLetter(_) =>
  }

  /** Terminal events are unique: a row that can be delivered is not that of an item whose event is dead. */
  lemma DeadEndIsTheOnlyOne(w: World, k: nat, a: nat)
    requires Endings.EventsTruthful(w.db) && IsEnd(w, k) && k !in w.dead && EndIsDead(w, a)
    ensures w.db.outbox[k].analysis != a
  {
    var d :| d in w.dead && d < |w.db.outbox| && w.db.outbox[d].AnalysisEnded? && w.db.outbox[d].analysis == a;
    assert d != k;
  }

  lemma TakingUpEndsNone(b: Batch.State, a: nat, i: nat)
    requires i < |b.items|
    ensures i < |Batch.Apply(b, Batch.Requested(a)).items|
    ensures Batch.Ended(Batch.Apply(b, Batch.Requested(a)).items[i].status) <==> Batch.Ended(b.items[i].status)
  {
  }

  /** So an open item whose event is dead stays open. */
  lemma DeadEndStays(w: World, move: Move, i: nat)
    requires WorldInv(w) && i < |w.batch.items| && !Batch.Ended(w.batch.items[i].status)
    requires EndIsDead(w, w.batch.items[i].analysis)
    ensures i < |Act(w, move).batch.items| && !Batch.Ended(Act(w, move).batch.items[i].status)
  {
    match move
    case Transaction(step) => if TakesUp(w.db, step) { TakingUpEndsNone(w.batch, step.life.a, i); }
    case Schedule => ScheduleEndsNone(w.batch);
    case DeliverEnd(k) =>
      if IsEnd(w, k) && k !in w.dead {
        DeliveryFrame(w, k);
        DeadEndIsTheOnlyOne(w, k, w.batch.items[i].analysis);
      }
    case DeadLetter(_) =>
  }

  lemma ActKeepsStall(w: World, move: Move)
    requires WorldInv(w) && Stalled(w)
    ensures Stalled(Act(w, move))
  {
    var i :| 0 <= i < |w.batch.items| && Silent(w, i);
    var v := Act(w, move);
    ActCarries(w, move);
    if !Batch.Ended(w.batch.items[i].status) && EndIsDead(w, w.batch.items[i].analysis) {
      DeadEndStays(w, move, i);
      var k :| k in w.dead && k < |w.db.outbox| && w.db.outbox[k].AnalysisEnded? &&
               w.db.outbox[k].analysis == w.batch.items[i].analysis;
      assert v.db.outbox[k] == w.db.outbox[k] && EndIsDead(v, v.batch.items[i].analysis);
    }
    assert Silent(v, i);
  }

  /** A silent ending of one item keeps the batch open for ever. */
  lemma {:induction false} StallIsForever(w: World, moves: seq<Move>)
    requires WorldInv(w) && Stalled(w)
    ensures WorldInv(Run(w, moves)) && Stalled(Run(w, moves)) && !Batch.BatchEnded(Run(w, moves).batch.row.status)
  {
    if moves != [] {
      var n := |moves| - 1;
      StallIsForever(w, moves[..n]);
      ActKeepsWorldInv(Run(w, moves[..n]), moves[n]);
      ActKeepsStall(Run(w, moves[..n]), moves[n]);
    }
    StalledIsNotEnded(Run(w, moves));
  }

  /** The next transaction on the way to item `i`'s ending: cancel through the API, let the analysis
      worker cancel, or let the owing handler write its event; none when the event is there. */
  function NextStep(w: World, a: nat): Option<Platform.Step>
    requires a < |w.db.analyses|
  {
    if Platform.LiveAnalysis(w.db.analyses[a]) then Some(Platform.Life(Platform.ApiCancel(a)))
    else if w.db.analyses[a].Cancelling? then Some(Platform.Life(Platform.HandleCancelRequested(a, Some(a))))
    else if a in w.db.owed then Some(Platform.Life(Platform.EmitFailed(a)))
    else None
  }

  /** How far the analysis is from having its event written. */
  function Distance(w: World, a: nat): nat
    requires a < |w.db.analyses|
  {
    if Platform.LiveAnalysis(w.db.analyses[a]) then 2
    else if w.db.analyses[a].Cancelling? || a in w.db.owed then 1
    else 0
  }

  /** These transactions make no ending silent. */
  lemma NextStepIsLoud(w: World, a: nat)
    requires !Stalled(w) && a < |w.db.analyses| && NextStep(w, a).Some? && DeadFits(w.db, w.dead)
    ensures !Stalled(w.(db := Platform.Apply(w.db, NextStep(w, a).value)))
  {
    var v := w.(db := Platform.Apply(w.db, NextStep(w, a).value));
    forall j | 0 <= j < |v.batch.items|
      ensures !Silent(v, j)
    {
      assert !Silent(w, j);
    }
  }

  lemma NextStepAdvances(w: World, i: nat)
    requires WorldInv(w) && !Stalled(w) && i < |w.batch.items|
    requires NextStep(w, w.batch.items[i].analysis).Some?
    ensures var a := w.batch.items[i].analysis;
            var v := Act(w, Transaction(NextStep(w, a).value));
            WorldInv(v) && !Stalled(v) && v.batch == w.batch && a < |v.db.analyses| && Distance(v, a) < Distance(w, a)
  {
    var a := w.batch.items[i].analysis;
    var step := NextStep(w, a).value;
    assert Endings.Driven(w.db, a);
    assert Causes.Caused(w.db, step);
    TransactionKeepsInv(w, step);
    NextStepIsLoud(w, a);
  }

  lemma EventIsThere(w: World, i: nat) returns (k: nat)
    requires WorldInv(w) && !Stalled(w) && i < |w.batch.items| && !Batch.Ended(w.batch.items[i].status)
    requires NextStep(w, w.batch.items[i].analysis).None?
    ensures IsEnd(w, k) && k !in w.dead && w.db.outbox[k].analysis == w.batch.items[i].analysis
  {
    var a := w.batch.items[i].analysis;
    assert !Silent(w, i) && Endings.Driven(w.db, a);
    k :| 0 <= k < |w.db.outbox| && w.db.outbox[k] == Platform.AnalysisEnded(a, w.db.analyses[a]);
  }

  lemma DeliveryEndsItem(w: World, i: nat, k: nat)
    requires WorldInv(w) && !Stalled(w) && i < |w.batch.items| && !Batch.Ended(w.batch.items[i].status)
    requires IsEnd(w, k) && k !in w.dead && w.db.outbox[k].analysis == w.batch.items[i].analysis
    ensures var v := Act(w, DeliverEnd(k));
            WorldInv(v) && !Stalled(v) && Batch.EndedItems(v.batch) == Batch.EndedItems(w.batch) + 1 &&
            v.batch.row.total == w.batch.row.total
  {
    var v := Act(w, DeliverEnd(k));
    DeliveryKeepsInv(w, k);
    DeliveryFrame(w, k);
    Batch.StepEndsOne(w.batch, EndStep(w, k));
    RequestsAreLoud(w, v, k);
  }

  /** A delivery writes requests only. */
  lemma RequestsAreLoud(w: World, v: World, k: nat)
    requires WorldInv(w) && !Stalled(w) && IsEnd(w, k) && k !in w.dead && v == Act(w, DeliverEnd(k))
    ensures !Stalled(v)
  {
    DeliveryFrame(w, k);
    var b := Batch.Apply(w.batch, EndStep(w, k));
    var ids := b.requests[|w.batch.requests|..];
    forall j | 0 <= j < |v.batch.items|
      ensures !Silent(v, j)
    {
      assert !Silent(w, j);
      RequestsForExactly(b.items, ids, Platform.SnapshotFailed(v.batch.items[j].analysis));
    }
  }

  lemma {:induction false} RunThen(w: World, first: Move, rest: seq<Move>)
    ensures Run(w, [first] + rest) == Run(Act(w, first), rest)
  {
    var all := [first] + rest;
    if rest == [] {
      assert all[..0] == [];
    } else {
      RunThen(w, first, rest[..|rest| - 1]);
      assert all[..|all| - 1] == [first] + rest[..|rest| - 1];
    }
  }

  /** Without a silent ending the batch can be brought to its end from wherever it stands, and that without
      the event of its submission, which may be dead-lettered as well: every open item can be cancelled. */
  lemma {:induction false} CanEnd(w: World, goal: Option<nat>) returns (moves: seq<Move>)
    requires WorldInv(w) && !Stalled(w)
    requires goal.Some? ==> goal.value < |w.batch.items| && !Batch.Ended(w.batch.items[goal.value].status)
    ensures Batch.BatchEnded(Run(w, moves).batch.row.status) && Schedule !in moves
    decreases w.batch.row.total - Batch.EndedItems(w.batch),
              if goal.None? then 3 else Distance(w, w.batch.items[goal.value].analysis)
  {
    moves := [];
    Batch.BatchReport(w.batch);
    if goal.None? {
      if !Batch.BatchEnded(w.batch.row.status) {
        var i :| 0 <= i < |w.batch.items| && !Batch.Ended(w.batch.items[i].status);
        moves := CanEnd(w, Some(i));
      }
    } else {
      var i := goal.value;
      var next := NextStep(w, w.batch.items[i].analysis);
      if next.Some? {
        NextStepAdvances(w, i);
        var rest := CanEnd(Act(w, Transaction(next.value)), goal);
        RunThen(w, Transaction(next.value), rest);
        moves := [Transaction(next.value)] + rest;
      } else {
        var k := EventIsThere(w, i);
        DeliveryEndsItem(w, i, k);
        var rest := CanEnd(Act(w, DeliverEnd(k)), None);
        RunThen(w, DeliverEnd(k), rest);
        moves := [DeliverEnd(k)] + rest;
      }
    }
  }

  predicate EndsBy(w: World, moves: seq<Move>) {
    Batch.BatchEnded(Run(w, moves).batch.row.status)
  }

  /** A batch can still end if and only if none of its items ended silently. */
  lemma BatchCanEndIff(w: World)
    requires WorldInv(w)
    ensures (exists moves :: EndsBy(w, moves)) <==> !Stalled(w)
    ensures !Stalled(w) ==> exists moves :: EndsBy(w, moves) && Schedule !in moves
  {
    if Stalled(w) {
      forall moves
        ensures !EndsBy(w, moves)
      {
        StallIsForever(w, moves);
      }
    } else {
      var moves := CanEnd(w, None);
      assert EndsBy(w, moves) && Schedule !in moves;
    }
  }

  // --- All three silent endings happen ---

  /** `w` is reached by a batch of one analysis submitted to an empty system. */
  ghost predicate Reached(w: World) {
    exists moves :: Run(Submitted([], 1, 1), moves) == w
  }

  lemma Reach(w: World, move: Move)
    requires Reached(w)
    ensures Reached(Act(w, move))
  {
    var moves :| Run(Submitted([], 1, 1), moves) == w;
    assert (moves + [move])[..|moves|] == moves;
    assert Run(Submitted([], 1, 1), moves + [move]) == Act(w, move);
  }

  /** The one analysis is live and has got as far as `event`. */
  predicate At(w: World, event: Platform.Event) {
    |w.batch.items| == 1 && w.batch.items[0].analysis == 0 && Platform.Continuable(w.db, 0, 0) &&
    event in w.db.outbox && w.db.owed == {}
  }

  lemma ScheduleOne(b: Batch.State)
    requires b == Batch.NewBatch([0], 1)
    ensures var after := Batch.Apply(b, Batch.Schedule);
            b.requests == [] && after.requests == [0] && |after.items| == 1 &&
            after.items[0].analysis == 0 && !Batch.Ended(after.items[0].status)
  {
    assert b.items == [Batch.Item(0, Batch.Pending, false)];
    assert Batch.Count(b.items[..0], Batch.PendingKind) == 0 && Batch.Claims(b.items, 1, 0);
    assert Batch.ClaimedBelow(b.items, 1, 0) == [] && Batch.ClaimedIds(b.items, 1) == [0];
  }

  lemma SubmitOne() returns (w: World)
    ensures Reached(w) && w.batch == Batch.NewBatch([0], 1)
    ensures Platform.Continuable(w.db, 0, 0) && w.db.analyses == [Platform.Queued] && w.db.owed == {}
  {
    w := Submitted([], 1, 1);
    assert Run(w, []) == w;
    assert Inserted(Platform.Initial(), 0) == Platform.Initial();
    assert NewIds(Platform.Initial(), 1) == [0];
  }

  lemma Dispatch() returns (w: World)
    ensures Reached(w) && At(w, Platform.AnalysisRequested(0)) && w.db.analyses == [Platform.Queued]
    ensures !Batch.Ended(w.batch.items[0].status)
  {
    var start := SubmitOne();
    ScheduleOne(start.batch);
    Reach(start, Schedule);
    w := Act(start, Schedule);
    assert [0][|start.batch.requests|..] == [0];
    assert RequestsFor(w.batch.items, [0][..0]) == [];
  }

  lemma TakeUp() returns (w: World)
    ensures Reached(w) && At(w, Platform.SnapshotRequested(0))
  {
    var v := Dispatch();
    var step := Platform.Life(Platform.HandleAnalysisRequested(0));
    Reach(v, Transaction(step));
    w := Act(v, Transaction(step));
    assert w.db.outbox[|v.db.outbox|] == Platform.SnapshotRequested(0);
  }

  /** The snapshot worker fails the analysis. */
  lemma SnapshotFailureStalls() returns (w: World)
    ensures Reached(w) && Stalled(w)
  {
    var v := TakeUp();
    var step := Platform.Life(Platform.SnapshotFail(0, 0));
    Reach(v, Transaction(step));
    w := Act(v, Transaction(step));
    assert w.db.outbox[|v.db.outbox|] == Platform.SnapshotFailed(0);
    assert Silent(w, 0);
  }

  lemma GetReady() returns (w: World)
    ensures Reached(w) && At(w, Platform.SnapshotReady(0))
  {
    var v := TakeUp();
    var step := Platform.Life(Platform.AssociateSnapshot(0, 0, 0));
    Reach(v, Transaction(step));
    w := Act(v, Transaction(step));
    assert w.db.outbox[|v.db.outbox|] == Platform.SnapshotReady(0);
  }

  /** The agent handler fails the analysis and dies before it writes AnalysisFailed. */
  lemma LostFailureStalls() returns (w: World)
    ensures Reached(w) && Stalled(w)
  {
    var v := GetReady();
    var fail := Platform.Life(Platform.FailAnalysis(0, 0));
    Reach(v, Transaction(fail));
    var failed := Act(v, Transaction(fail));
    assert 0 in failed.db.owed;
    var drop := Platform.Life(Platform.DropFailed(0));
    Reach(failed, Transaction(drop));
    w := Act(failed, Transaction(drop));
    assert Silent(w, 0);
  }

  /** The analysis is cancelled, and the scheduler's last attempt at its AnalysisCancelled fails. */
  lemma DeadLetterStalls() returns (w: World)
    ensures Reached(w) && Stalled(w)
  {
    var v := Dispatch();
    var cancelled, k := CancelOne(v);
    Reach(cancelled, DeadLetter(k));
    w := Act(cancelled, DeadLetter(k));
    assert k in w.dead && EndIsDead(w, 0);
    assert Silent(w, 0);
  }

  lemma CancelOne(v: World) returns (w: World, k: nat)
    requires Reached(v) && At(v, Platform.AnalysisRequested(0)) && v.db.analyses == [Platform.Queued]
    ensures Reached(w) && w.batch == v.batch && IsEnd(w, k) && w.db.outbox[k].analysis == 0
  {
    var cancel := Platform.Life(Platform.ApiCancel(0));
    Reach(v, Transaction(cancel));
    var asked := Act(v, Transaction(cancel));
    assert asked.db.outbox[|v.db.outbox|] == Platform.CancelRequested(0);
    var handle := Platform.Life(Platform.HandleCancelRequested(0, Some(0)));
    Reach(asked, Transaction(handle));
    w, k := Act(asked, Transaction(handle)), |asked.db.outbox|;
    assert w.db.outbox[k] == Platform.AnalysisEnded(0, Platform.Cancelled);
  }
}
