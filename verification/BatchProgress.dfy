/** The items of a batch against the analyses they dispatched: an item says dispatched until the
    analysis worker takes its analysis up, and from then on snapshotting, until its end is told. */
module BatchProgress {
  import opened Wrappers
  import Batch
  import Platform
  import Causes
  import opened BatchWorld

  /** Nothing stores running in an item. */
  predicate ItemFollows(outbox: seq<Platform.Event>, item: Batch.Item) {
    match item.status
    case Pending => Platform.SnapshotRequested(item.analysis) !in outbox
    case Dispatched => Platform.SnapshotRequested(item.analysis) !in outbox
    case Snapshotting => Platform.SnapshotRequested(item.analysis) in outbox
    case Running => false
    case _ => true
  }

  predicate ItemsFollow(outbox: seq<Platform.Event>, items: seq<Batch.Item>) {
    forall i :: 0 <= i < |items| ==> ItemFollows(outbox, items[i])
  }

  /** The move from `item` to `after` within the scheduler. */
  predicate DispatchedOrSame(item: Batch.Item, after: Batch.Item) {
    after == item || (item.status.Pending? && after == item.(status := Batch.Dispatched, dispatched := true))
  }

  lemma ScheduleDispatches(b: Batch.State, i: nat)
    requires i < |b.items|
    ensures var after := Batch.ScheduleBatch(b);
            i < |after.items| && DispatchedOrSame(b.items[i], after.items[i])
  {
  }

  lemma SchedulingFollows(w: World, b: Batch.State)
    requires ItemsFollow(w.db.outbox, b.items)
    ensures ItemsFollow(Scheduled(w, b).db.outbox, b.items)
  {
    var added := if w.batch.requests <= b.requests then b.requests[|w.batch.requests|..] else [];
    forall i | 0 <= i < |b.items|
      ensures ItemFollows(Scheduled(w, b).db.outbox, b.items[i])
    {
      RequestsForExactly(b.items, added, Platform.SnapshotRequested(b.items[i].analysis));
      assert ItemFollows(w.db.outbox, b.items[i]);
    }
  }

  lemma ScheduleFollows(outbox: seq<Platform.Event>, b: Batch.State)
    requires ItemsFollow(outbox, b.items)
    ensures ItemsFollow(outbox, Batch.ScheduleBatch(b).items)
  {
    ScheduleEndsNone(b);
    forall i | 0 <= i < |b.items|
      ensures ItemFollows(outbox, Batch.ScheduleBatch(b).items[i])
    {
      ScheduleDispatches(b, i);
      assert ItemFollows(outbox, b.items[i]);
    }
  }

  lemma TerminalFollows(outbox: seq<Platform.Event>, b: Batch.State, analysis: nat, outcome: Batch.Outcome)
    requires ItemsFollow(outbox, b.items)
    ensures ItemsFollow(outbox, Batch.Apply(b, Batch.Terminal(analysis, outcome)).items)
  {
    var found := Batch.FindItem(b.items, analysis);
    if found.Some? && !Batch.Ended(b.items[found.value].status) {
      ScheduleFollows(outbox, Batch.Refresh(Batch.EndItem(b, found.value, outcome)));
    }
  }

  /** Only taking an analysis up writes SnapshotRequested. */
  lemma OthersRequestNoSnapshot(db: Platform.Db, step: Platform.Step, a: nat)
    requires !(TakesUp(db, step) && step.life.a == a)
    ensures Platform.SnapshotRequested(a) in Causes.Do(db, step).outbox <==> Platform.SnapshotRequested(a) in db.outbox
  {
    match step
    case Life(s) =>
    case Turning(s) => Platform.TurnFrame(db, s);
    case Calling(s) => Platform.CallFrame(db, s);
  }

  lemma TakingUpFollows(w: World, step: Platform.Step)
    requires WorldInv(w) && ItemsFollow(w.db.outbox, w.batch.items) && TakesUp(w.db, step)
    ensures ItemsFollow(Causes.Do(w.db, step).outbox, Batch.Apply(w.batch, Batch.Requested(step.life.a)).items)
  {
    var after := Causes.Do(w.db, step);
    var items := Batch.Apply(w.batch, Batch.Requested(step.life.a)).items;
    assert after.outbox == w.db.outbox + [Platform.SnapshotRequested(step.life.a)];
    forall i | 0 <= i < |items|
      ensures ItemFollows(after.outbox, items[i])
    {
      assert ItemFollows(w.db.outbox, w.batch.items[i]);
    }
  }

  lemma TransactionFollows(w: World, step: Platform.Step)
    requires WorldInv(w) && ItemsFollow(w.db.outbox, w.batch.items)
    ensures ItemsFollow(Act(w, Transaction(step)).db.outbox, Act(w, Transaction(step)).batch.items)
  {
    if TakesUp(w.db, step) {
      TakingUpFollows(w, step);
    } else {
      forall i | 0 <= i < |w.batch.items|
        ensures ItemFollows(Causes.Do(w.db, step).outbox, w.batch.items[i])
      {
        OthersRequestNoSnapshot(w.db, step, w.batch.items[i].analysis);
        assert ItemFollows(w.db.outbox, w.batch.items[i]);
      }
    }
  }

  lemma ActFollows(w: World, move: Move)
    requires WorldInv(w) && ItemsFollow(w.db.outbox, w.batch.items)
    ensures ItemsFollow(Act(w, move).db.outbox, Act(w, move).batch.items)
  {
    match move
    case Transaction(step) => TransactionFollows(w, step);
    case Schedule =>
      ScheduleFollows(w.db.outbox, w.batch);
      SchedulingFollows(w, Batch.Apply(w.batch, Batch.Schedule));
    case DeliverEnd(i) =>
      if IsEnd(w, i) && i !in w.dead {
        TerminalFollows(w.db.outbox, w.batch, EndStep(w, i).analysis, EndStep(w, i).outcome);
        SchedulingFollows(w, Batch.Apply(w.batch, EndStep(w, i)));
      }
    case DeadLetter(_) =>
  }

  /** In every run from a submission a waiting item's analysis was never handed to the snapshot worker, a
      dispatched one's neither, and a snapshotting one's was. */
  lemma {:induction false} RunFollows(before: seq<Platform.Step>, n: nat, maxParallel: int, moves: seq<Move>)
    requires n >= 1 && maxParallel >= 1
    ensures var w := Run(Submitted(before, n, maxParallel), moves); ItemsFollow(w.db.outbox, w.batch.items)
  {
    if moves == [] {
      EndedItemsAreTruthful(before, n, maxParallel, []);
      var w := Submitted(before, n, maxParallel);
      forall i | 0 <= i < |w.batch.items|
        ensures ItemFollows(w.db.outbox, w.batch.items[i])
      {
        assert Causes.InStep(w.db, w.batch.items[i].analysis);
      }
    } else {
      var k := |moves| - 1;
      RunFollows(before, n, maxParallel, moves[..k]);
      EndedItemsAreTruthful(before, n, maxParallel, moves[..k]);
      ActFollows(Run(Submitted(before, n, maxParallel), moves[..k]), moves[k]);
    }
  }
}
