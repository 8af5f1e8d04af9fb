/** The batch scheduler: one batch row with stored counters, its items in sort order, and the
    AnalysisRequested events written for dispatched items.  One handler call is one transaction, and
    transactions on a batch are taken one after the other (the batch row is locked); how single SQL
    statements of two such transactions interleave is outside this model. */
module Batch {
  import opened Wrappers

  datatype ItemStatus = Pending | Dispatched | Snapshotting | Running | Completed | Failed | Cancelled

  datatype Outcome = EndCompleted | EndFailed | EndCancelled

  /** The columns counted by `_refresh_batch_counts`. */
  datatype Kind = PendingKind | ActiveKind | CompletedKind | FailedKind | CancelledKind

  /** `dispatched` is `dispatched_at IS NOT NULL`. */
  datatype Item = Item(analysis: nat, status: ItemStatus, dispatched: bool)

  datatype BatchStatus = BatchQueued | BatchRunning | BatchCompleted | BatchFailed

  datatype Row = Row(status: BatchStatus, maxParallel: int, total: nat, pending: nat, active: nat,
                     completed: nat, failed: nat, cancelled: nat)

  /** `requests` lists the items for which AnalysisRequested was put in the outbox. */
  datatype State = State(row: Row, items: seq<Item>, requests: seq<nat>)

  datatype Step = Schedule | Requested(analysis: nat) | Terminal(analysis: nat, outcome: Outcome)

  function KindOf(s: ItemStatus): Kind {
    match s
    case Pending => PendingKind
    case Dispatched => ActiveKind
    case Snapshotting => ActiveKind
    case Running => ActiveKind
    case Completed => CompletedKind
    case Failed => FailedKind
    case Cancelled => CancelledKind
  }

  predicate Ended(s: ItemStatus) {
    s.Completed? || s.Failed? || s.Cancelled?
  }

  predicate BatchEnded(s: BatchStatus) {
    s.BatchCompleted? || s.BatchFailed?
  }

  function StatusOf(outcome: Outcome): ItemStatus {
    match outcome
    case EndCompleted => Completed
    case EndFailed => Failed
    case EndCancelled => Cancelled
  }

  function Count(items: seq<Item>, kind: Kind): nat {
    if items == [] then 0
    else Count(items[..|items| - 1], kind) + if KindOf(items[|items| - 1].status) == kind then 1 else 0
  }

  function NewBatch(analyses: seq<nat>, maxParallel: int): State {
    State(Row(BatchQueued, maxParallel, |analyses|, |analyses|, 0, 0, 0, 0),
          seq(|analyses|, i requires 0 <= i < |analyses| => Item(analyses[i], Pending, false)), [])
  }

  /** The row of a batch over these items, given its previous status. */
  function RefreshedRow(row: Row, items: seq<Item>): Row {
    var pending := Count(items, PendingKind);
    var active := Count(items, ActiveKind);
    var failed := Count(items, FailedKind);
    Row(if pending == 0 && active == 0 && failed > 0 then BatchFailed
        else if pending == 0 && active == 0 then BatchCompleted
        else if active > 0 then BatchRunning
        else row.status,
        row.maxParallel, row.total, pending, active,
        Count(items, CompletedKind), failed, Count(items, CancelledKind))
  }

  function Refresh(b: State): State {
    b.(row := RefreshedRow(b.row, b.items))
  }

  /** An item is claimed when it is pending and fewer than `limit` pending items come before it. */
  predicate Claims(items: seq<Item>, limit: nat, i: nat)
    requires i < |items|
  {
    items[i].status.Pending? && Count(items[..i], PendingKind) < limit
  }

  function Claim(items: seq<Item>, limit: nat): (r: seq<Item>)
    ensures |r| == |items|
    ensures forall i :: 0 <= i < |r| ==>
      r[i] == if Claims(items, limit, i) then items[i].(status := Dispatched, dispatched := true) else items[i]
  {
    seq(|items|, i requires 0 <= i < |items| =>
      if Claims(items, limit, i) then items[i].(status := Dispatched, dispatched := true) else items[i])
  }

  function ClaimedIds(items: seq<Item>, limit: nat): seq<nat> {
    ClaimedBelow(items, limit, |items|)
  }

  function ClaimedBelow(items: seq<Item>, limit: nat, n: nat): seq<nat>
    requires n <= |items|
  {
    if n == 0 then []
    else ClaimedBelow(items, limit, n - 1) + if Claims(items, limit, n - 1) then [n - 1] else []
  }

  function ScheduleBatch(b: State): State {
    if BatchEnded(b.row.status) then b
    else if b.row.pending == 0 then Refresh(b)
    else
      var slots := b.row.maxParallel - b.row.active;
      if slots <= 0 || ClaimedIds(b.items, slots) == [] then b else Filled(b, slots)
  }

  /** The claimed items dispatched, the counts refreshed and the requests written. */
  function Filled(b: State, slots: nat): State {
    Refresh(b.(items := Claim(b.items, slots))).(requests := b.requests + ClaimedIds(b.items, slots))
  }

  function FindItem(items: seq<Item>, analysis: nat): (r: Option<nat>)
    ensures r.Some? ==> r.value < |items| && items[r.value].analysis == analysis
    ensures r.None? ==> forall i :: 0 <= i < |items| ==> items[i].analysis != analysis
  {
    if items == [] then None
    else if items[|items| - 1].analysis == analysis then Some(|items| - 1)
    else FindItem(items[..|items| - 1], analysis)
  }

  function EndItem(b: State, i: nat, outcome: Outcome): State
    requires i < |b.items|
  {
    b.(items := b.items[i := b.items[i].(status := StatusOf(outcome))])
  }

  function Apply(b: State, step: Step): State {
    match step
    case Schedule => ScheduleBatch(b)
    case Requested(analysis) =>
      var found := FindItem(b.items, analysis);
      if found.Some? && b.items[found.value].status.Dispatched?
      then b.(items := b.items[found.value := b.items[found.value].(status := Snapshotting)]) else b
    case Terminal(analysis, outcome) =>
      var found := FindItem(b.items, analysis);
      if found.None? || Ended(b.items[found.value].status) then b
      else ScheduleBatch(Refresh(EndItem(b, found.value, outcome)))
  }

  function Run(b: State, steps: seq<Step>): State {
    if steps == [] then b else Apply(Run(b, steps[..|steps| - 1]), steps[|steps| - 1])
  }

  // --- Counting ---

  lemma {:induction false} CountUpdate(items: seq<Item>, i: nat, item: Item, kind: Kind)
    requires i < |items|
    ensures Count(items[i := item], kind) ==
            Count(items, kind) - (if KindOf(items[i].status) == kind then 1 else 0)
                               + (if KindOf(item.status) == kind then 1 else 0)
  {
    var n := |items| - 1;
    if i == n {
      assert items[i := item][..n] == items[..n];
    } else {
      CountUpdate(items[..n], i, item, kind);
      assert items[i := item][..n] == items[..n][i := item];
    }
  }

  lemma {:induction false} CountsSum(items: seq<Item>)
    ensures Count(items, PendingKind) + Count(items, ActiveKind) + Count(items, CompletedKind) +
            Count(items, FailedKind) + Count(items, CancelledKind) == |items|
  {
    if items != [] {
      CountsSum(items[..|items| - 1]);
    }
  }

  lemma {:induction false} CountZeroIff(items: seq<Item>, kind: Kind)
    ensures Count(items, kind) == 0 <==> forall i :: 0 <= i < |items| ==> KindOf(items[i].status) != kind
  {
    if items != [] {
      var n := |items| - 1;
      CountZeroIff(items[..n], kind);
      assert forall i :: 0 <= i < n ==> items[..n][i] == items[i];
    }
  }

  lemma {:induction false} CountPrefix(items: seq<Item>, n: nat, kind: Kind)
    requires n < |items|
    ensures Count(items[..n + 1], kind) == Count(items[..n], kind) + if KindOf(items[n].status) == kind then 1 else 0
    ensures Count(items[..n + 1], kind) <= Count(items, kind)
    decreases |items| - n
  {
    assert items[..n + 1][..n] == items[..n];
    if n + 1 < |items| {
      CountPrefix(items, n + 1, kind);
    } else {
      assert items[..n + 1] == items;
    }
  }

  /** Claiming moves min(limit, pending) items from pending to active and leaves the rest. */
  lemma {:induction false} ClaimCounts(items: seq<Item>, limit: nat, n: nat)
    requires n <= |items|
    ensures var before, after := items[..n], Claim(items, limit)[..n];
            var moved := Min(limit, Count(before, PendingKind));
            Count(after, PendingKind) == Count(before, PendingKind) - moved &&
            Count(after, ActiveKind) == Count(before, ActiveKind) + moved &&
            |ClaimedBelow(items, limit, n)| == moved &&
            Count(after, CompletedKind) == Count(before, CompletedKind) &&
            Count(after, FailedKind) == Count(before, FailedKind) &&
            Count(after, CancelledKind) == Count(before, CancelledKind)
  {
    if n > 0 {
      ClaimCounts(items, limit, n - 1);
      assert items[..n][..n - 1] == items[..n - 1];
      assert Claim(items, limit)[..n][..n - 1] == Claim(items, limit)[..n - 1];
    }
  }

  lemma {:induction false} ClaimedMember(items: seq<Item>, limit: nat, n: nat, i: nat)
    requires i < n <= |items|
    ensures i in ClaimedBelow(items, limit, n) <==> Claims(items, limit, i)
  {
    ClaimedInRange(items, limit, n - 1);
    if i < n - 1 {
      ClaimedMember(items, limit, n - 1, i);
    }
  }

  lemma {:induction false} ClaimedInRange(items: seq<Item>, limit: nat, n: nat)
    requires n <= |items|
    ensures forall i :: i in ClaimedBelow(items, limit, n) ==> i < n && Claims(items, limit, i)
  {
    if n > 0 {
      ClaimedInRange(items, limit, n - 1);
    }
  }

  predicate Ascending(ids: seq<nat>) {
    forall p, q :: 0 <= p < q < |ids| ==> ids[p] < ids[q]
  }

  lemma {:induction false} ClaimedAscend(items: seq<Item>, limit: nat, n: nat)
    requires n <= |items|
    ensures Ascending(ClaimedBelow(items, limit, n))
  {
    if n > 0 {
      ClaimedAscend(items, limit, n - 1);
      ClaimedInRange(items, limit, n - 1);
      var before := ClaimedBelow(items, limit, n - 1);
      assert forall p :: 0 <= p < |before| ==> before[p] in before;
    }
  }

  /** The claimed ids are the claimed items, each once and in order. */
  lemma ClaimedExactly(items: seq<Item>, limit: nat, n: nat)
    requires n <= |items|
    ensures forall i :: 0 <= i < n ==> (Claims(items, limit, i) <==> i in ClaimedBelow(items, limit, n))
    ensures forall i :: i in ClaimedBelow(items, limit, n) ==> i < n && Claims(items, limit, i)
    ensures Ascending(ClaimedBelow(items, limit, n))
  {
    forall i | 0 <= i < n
      ensures Claims(items, limit, i) <==> i in ClaimedBelow(items, limit, n)
    {
      ClaimedMember(items, limit, n, i);
    }
    ClaimedInRange(items, limit, n);
    ClaimedAscend(items, limit, n);
  }

  // --- The invariant ---

  predicate CountersExact(b: State) {
    b.row.total == |b.items| &&
    b.row.pending == Count(b.items, PendingKind) && b.row.active == Count(b.items, ActiveKind) &&
    b.row.completed == Count(b.items, CompletedKind) && b.row.failed == Count(b.items, FailedKind) &&
    b.row.cancelled == Count(b.items, CancelledKind)
  }

  /** The batch status against the items: queued before anything happened, running with a slot in use
      and full while items wait, ended exactly when every item has. */
  predicate StatusExact(row: Row) {
    row.active <= row.maxParallel &&
    (row.status.BatchQueued? <==> row.pending == row.total) &&
    (row.status.BatchRunning? ==> row.active > 0 && (row.pending > 0 ==> row.active == row.maxParallel)) &&
    (BatchEnded(row.status) <==> row.pending + row.active == 0) &&
    (BatchEnded(row.status) ==> (row.status.BatchFailed? <==> row.failed > 0))
  }

  predicate Dispatching(items: seq<Item>) {
    (forall i :: 0 <= i < |items| ==> (items[i].status.Pending? ==> !items[i].dispatched)) &&
    (forall i :: 0 <= i < |items| ==> (KindOf(items[i].status).ActiveKind? ==> items[i].dispatched)) &&
    (forall i, j :: 0 <= i < j < |items| && items[i].status.Pending? ==> !items[j].dispatched)
  }

  /** Each dispatched item was requested exactly once, and nothing else was. */
  predicate RequestsExact(items: seq<Item>, requests: seq<nat>) {
    (forall p, q :: 0 <= p < q < |requests| ==> requests[p] != requests[q]) &&
    (forall p :: 0 <= p < |requests| ==> requests[p] < |items|) &&
    (forall i :: 0 <= i < |items| ==> (items[i].dispatched <==> i in requests))
  }

  predicate BatchInv(b: State) {
    b.row.maxParallel >= 1 && CountersExact(b) && StatusExact(b.row) && Dispatching(b.items) &&
    RequestsExact(b.items, b.requests)
  }

  /** What holds between the update of one item and the scheduling call that follows it. */
  predicate Unscheduled(b: State) {
    b.row.maxParallel >= 1 && CountersExact(b) && Dispatching(b.items) && RequestsExact(b.items, b.requests) &&
    b.row.active <= b.row.maxParallel && |b.items| >= 1 && (b.row.active > 0 ==> b.row.status.BatchRunning?) &&
    (BatchEnded(b.row.status) <==> b.row.pending + b.row.active == 0) &&
    (BatchEnded(b.row.status) ==> (b.row.status.BatchFailed? <==> b.row.failed > 0))
  }

  lemma ClaimKeepsDispatching(items: seq<Item>, limit: nat)
    requires Dispatching(items)
    ensures Dispatching(Claim(items, limit))
  {
    var after := Claim(items, limit);
    forall i, j | 0 <= i < j < |after| && after[i].status.Pending?
      ensures !after[j].dispatched
    {
      PendingBefore(items, i, j);
    }
  }

  /** A pending item left unclaimed counts against every later one. */
  lemma {:induction false} PendingBefore(items: seq<Item>, i: nat, j: nat)
    requires i < j <= |items| && items[i].status.Pending?
    ensures Count(items[..i], PendingKind) < Count(items[..j], PendingKind)
  {
    if i + 1 == j {
      CountPrefix(items, i, PendingKind);
    } else {
      PendingBefore(items, i, j - 1);
      CountPrefix(items, j - 1, PendingKind);
    }
  }

  lemma ClaimKeepsRequests(items: seq<Item>, requests: seq<nat>, limit: nat)
    requires Dispatching(items) && RequestsExact(items, requests)
    ensures RequestsExact(Claim(items, limit), requests + ClaimedIds(items, limit))
  {
    var ids := ClaimedIds(items, limit);
    var all := requests + ids;
    ClaimedExactly(items, limit, |items|);
    assert forall p :: 0 <= p < |ids| ==> ids[p] in ids;
    forall p, q | 0 <= p < q < |all|
      ensures all[p] != all[q]
    {
      if p < |requests| <= q {
        assert requests[p] in requests;
        assert !items[ids[q - |requests|]].dispatched;
      }
    }
    forall i | 0 <= i < |items|
      ensures Claim(items, limit)[i].dispatched <==> i in all
    {
      assert i in all <==> i in requests || i in ids;
    }
  }

  lemma RefreshExact(b: State)
    requires b.row.maxParallel >= 1 && |b.items| == b.row.total >= 1
    requires Count(b.items, ActiveKind) <= b.row.maxParallel
    requires Count(b.items, ActiveKind) == 0 ==> !BatchEnded(b.row.status)
    ensures CountersExact(Refresh(b))
    ensures var row := Refresh(b).row;
            row.maxParallel == b.row.maxParallel && row.active <= row.maxParallel &&
            (row.active > 0 ==> row.status.BatchRunning?) &&
            (row.active == 0 && row.pending > 0 ==> row.status == b.row.status) &&
            (BatchEnded(row.status) <==> row.pending + row.active == 0) &&
            (BatchEnded(row.status) ==> (row.status.BatchFailed? <==> row.failed > 0))
  {
  }

  /** Claiming on the whole list. */
  lemma ClaimCountsAll(items: seq<Item>, limit: nat)
    ensures var after := Claim(items, limit);
            var moved := Min(limit, Count(items, PendingKind));
            Count(after, PendingKind) == Count(items, PendingKind) - moved &&
            Count(after, ActiveKind) == Count(items, ActiveKind) + moved &&
            |ClaimedIds(items, limit)| == moved &&
            Count(after, CompletedKind) == Count(items, CompletedKind) &&
            Count(after, FailedKind) == Count(items, FailedKind) &&
            Count(after, CancelledKind) == Count(items, CancelledKind)
  {
    ClaimCounts(items, limit, |items|);
    assert items[..|items|] == items;
    assert Claim(items, limit)[..|items|] == Claim(items, limit);
  }

  /** Filling the free slots of an unfinished batch. */
  lemma ClaimFills(b: State, slots: nat)
    requires Unscheduled(b) && b.row.pending > 0 && slots == b.row.maxParallel - b.row.active && slots > 0
    ensures ClaimedIds(b.items, slots) != []
    ensures var after := Refresh(b.(items := Claim(b.items, slots)));
            CountersExact(after) && StatusExact(after.row) && after.row.maxParallel == b.row.maxParallel &&
            (after.row.pending > 0 ==> after.row.active == after.row.maxParallel)
  {
    ClaimCountsAll(b.items, slots);
    CountsSum(Claim(b.items, slots));
    RefreshExact(b.(items := Claim(b.items, slots)));
  }

  lemma FilledKeepsInv(b: State, slots: nat)
    requires Unscheduled(b) && b.row.pending > 0 && slots == b.row.maxParallel - b.row.active && slots > 0
    ensures BatchInv(Filled(b, slots)) && ClaimedIds(b.items, slots) != []
    ensures Filled(b, slots).row.pending > 0 ==> Filled(b, slots).row.active == Filled(b, slots).row.maxParallel
  {
    ClaimFills(b, slots);
    ClaimKeepsDispatching(b.items, slots);
    ClaimKeepsRequests(b.items, b.requests, slots);
  }

  /** A batch whose slots are full, or that has nothing pending or nothing left, already is scheduled. */
  lemma ScheduledAlready(b: State)
    requires Unscheduled(b) && (BatchEnded(b.row.status) || b.row.maxParallel <= b.row.active)
    ensures BatchInv(b) && (b.row.pending > 0 ==> b.row.active == b.row.maxParallel)
  {
    CountsSum(b.items);
  }

  lemma NothingPending(b: State)
    requires Unscheduled(b) && !BatchEnded(b.row.status) && b.row.pending == 0
    ensures BatchInv(Refresh(b)) && Refresh(b).row.pending == 0
  {
    CountsSum(b.items);
    RefreshExact(b);
  }

  /** One scheduling call: the slots are filled, or nothing is left to claim. */
  lemma ScheduleFills(b: State)
    requires Unscheduled(b)
    ensures BatchInv(ScheduleBatch(b))
    ensures var row := ScheduleBatch(b).row; row.pending > 0 ==> row.active == row.maxParallel
  {
    if BatchEnded(b.row.status) {
      ScheduledAlready(b);
    } else if b.row.pending == 0 {
      NothingPending(b);
    } else if b.row.maxParallel > b.row.active {
      FilledKeepsInv(b, b.row.maxParallel - b.row.active);
    } else {
      ScheduledAlready(b);
    }
  }

  lemma EndKeepsOrder(b: State, i: nat, outcome: Outcome)
    requires BatchInv(b) && i < |b.items| && !Ended(b.items[i].status)
    ensures Unscheduled(Refresh(EndItem(b, i, outcome)))
  {
    var item := b.items[i].(status := StatusOf(outcome));
    CountUpdate(b.items, i, item, PendingKind);
    CountUpdate(b.items, i, item, ActiveKind);
    CountsSum(b.items);
    RefreshExact(EndItem(b, i, outcome));
  }

  lemma StepKeepsBatchInv(b: State, step: Step)
    requires BatchInv(b)
    ensures BatchInv(Apply(b, step))
  {
    CountsSum(b.items);
    match step
    case Schedule => ScheduleFills(b);
    case Requested(analysis) =>
      var found := FindItem(b.items, analysis);
      if found.Some? && b.items[found.value].status.Dispatched? {
        var item := b.items[found.value].(status := Snapshotting);
        CountUpdate(b.items, found.value, item, PendingKind);
        CountUpdate(b.items, found.value, item, ActiveKind);
        CountUpdate(b.items, found.value, item, CompletedKind);
        CountUpdate(b.items, found.value, item, FailedKind);
        CountUpdate(b.items, found.value, item, CancelledKind);
      }
    case Terminal(analysis, outcome) =>
      var found := FindItem(b.items, analysis);
      if found.Some? && !Ended(b.items[found.value].status) {
        EndKeepsOrder(b, found.value, outcome);
        ScheduleFills(Refresh(EndItem(b, found.value, outcome)));
      }
  }

  /** For every order and repetition of submit, slot, AnalysisRequested and terminal events: counters
      exact, parallelism bounded, status exact, dispatch in sort order and at most once per item. */
  lemma {:induction false} RunKeepsBatchInv(analyses: seq<nat>, maxParallel: int, steps: seq<Step>)
    requires |analyses| >= 1 && maxParallel >= 1
    ensures BatchInv(Run(NewBatch(analyses, maxParallel), steps))
  {
    if steps == [] {
      var b := NewBatch(analyses, maxParallel);
      CountsSum(b.items);
      CountZeroIff(b.items, ActiveKind);
      CountZeroIff(b.items, CompletedKind);
      CountZeroIff(b.items, FailedKind);
      CountZeroIff(b.items, CancelledKind);
    } else {
      var n := |steps| - 1;
      RunKeepsBatchInv(analyses, maxParallel, steps[..n]);
      StepKeepsBatchInv(Run(NewBatch(analyses, maxParallel), steps[..n]), steps[n]);
    }
  }

  /** The invariant in the words of the batch API: the counters add up, and the batch has ended exactly
      when every item has. */
  lemma BatchReport(b: State)
    requires BatchInv(b)
    ensures b.row.pending + b.row.active + b.row.completed + b.row.failed + b.row.cancelled == b.row.total
    ensures BatchEnded(b.row.status) <==> forall i :: 0 <= i < |b.items| ==> Ended(b.items[i].status)
    ensures b.row.status.BatchFailed? ==> exists i :: 0 <= i < |b.items| && b.items[i].status.Failed?
    ensures b.row.status.BatchCompleted? ==> forall i :: 0 <= i < |b.items| ==> !b.items[i].status.Failed?
  {
    CountsSum(b.items);
    CountZeroIff(b.items, PendingKind);
    CountZeroIff(b.items, ActiveKind);
    CountZeroIff(b.items, FailedKind);
    assert forall i :: 0 <= i < |b.items| ==>
      (Ended(b.items[i].status) <==>
       KindOf(b.items[i].status) != PendingKind && KindOf(b.items[i].status) != ActiveKind);
  }

  // --- Progress ---

  function EndedItems(b: State): int {
    b.row.completed + b.row.failed + b.row.cancelled
  }

  predicate Effective(b: State, step: Step) {
    step.Terminal? && Apply(b, step) != b
  }

  function EffectiveSteps(b: State, steps: seq<Step>): nat {
    if steps == [] then 0
    else
      var before := Run(b, steps[..|steps| - 1]);
      EffectiveSteps(b, steps[..|steps| - 1]) + if Effective(before, steps[|steps| - 1]) then 1 else 0
  }

  lemma FilledKeepsEnded(b: State, slots: nat)
    requires CountersExact(b)
    ensures EndedItems(Filled(b, slots)) == EndedItems(b)
  {
    ClaimCountsAll(b.items, slots);
  }

  lemma ScheduleKeepsEnded(b: State)
    requires Unscheduled(b)
    ensures EndedItems(ScheduleBatch(b)) == EndedItems(b)
  {
    if !BatchEnded(b.row.status) && b.row.pending > 0 && b.row.maxParallel > b.row.active {
      FilledKeepsEnded(b, b.row.maxParallel - b.row.active);
    }
  }

  lemma EndCountsOne(b: State, i: nat, outcome: Outcome)
    requires BatchInv(b) && i < |b.items| && !Ended(b.items[i].status)
    ensures EndedItems(Refresh(EndItem(b, i, outcome))) == EndedItems(b) + 1
  {
    var item := b.items[i].(status := StatusOf(outcome));
    CountUpdate(b.items, i, item, CompletedKind);
    CountUpdate(b.items, i, item, FailedKind);
    CountUpdate(b.items, i, item, CancelledKind);
  }

  /** A terminal event ends one more item, or it is a repeat, a late conflict or foreign and changes
      nothing; no other event ends an item. */
  lemma StepEndsOne(b: State, step: Step)
    requires BatchInv(b)
    ensures EndedItems(Apply(b, step)) == EndedItems(b) + if Effective(b, step) then 1 else 0
    ensures step.Terminal? ==>
      (Effective(b, step) <==>
        FindItem(b.items, step.analysis).Some? && !Ended(b.items[FindItem(b.items, step.analysis).value].status))
  {
    CountsSum(b.items);
    match step
    case Schedule => ScheduleKeepsEnded(b);
    case Requested(analysis) =>
    case Terminal(analysis, outcome) =>
      var found := FindItem(b.items, analysis);
      if found.Some? && !Ended(b.items[found.value].status) {
        EndKeepsOrder(b, found.value, outcome);
        EndCountsOne(b, found.value, outcome);
        ScheduleKeepsEnded(Refresh(EndItem(b, found.value, outcome)));
      }
  }

  /** The batch ends with exactly its `total`-th effective terminal event, whatever repeats, conflicts
      and scheduling calls come in between. */
  lemma {:induction false} EndsAfterTotalEvents(analyses: seq<nat>, maxParallel: int, steps: seq<Step>)
    requires |analyses| >= 1 && maxParallel >= 1
    ensures var start := NewBatch(analyses, maxParallel);
            EndedItems(Run(start, steps)) == EffectiveSteps(start, steps) &&
            EffectiveSteps(start, steps) <= |analyses| &&
            (BatchEnded(Run(start, steps).row.status) <==> EffectiveSteps(start, steps) == |analyses|)
  {
    var start := NewBatch(analyses, maxParallel);
    RunKeepsBatchInv(analyses, maxParallel, steps);
    RunKeepsTotal(start, steps);
    CountsSum(Run(start, steps).items);
    if steps != [] {
      var n := |steps| - 1;
      EndsAfterTotalEvents(analyses, maxParallel, steps[..n]);
      RunKeepsBatchInv(analyses, maxParallel, steps[..n]);
      StepEndsOne(Run(start, steps[..n]), steps[n]);
    }
  }

  lemma {:induction false} RunKeepsTotal(b: State, steps: seq<Step>)
    ensures Run(b, steps).row.total == b.row.total && Run(b, steps).row.maxParallel == b.row.maxParallel
    ensures |Run(b, steps).items| == |b.items|
  {
    if steps != [] {
      RunKeepsTotal(b, steps[..|steps| - 1]);
    }
  }

  lemma StepKeepsSubmission(b: State, step: Step)
    ensures var after := Apply(b, step);
            after.row.maxParallel == b.row.maxParallel && |after.items| == |b.items| &&
            forall i :: 0 <= i < |b.items| ==> after.items[i].analysis == b.items[i].analysis
  {
  }

  predicate HasAnalyses(items: seq<Item>, analyses: seq<nat>) {
    |items| == |analyses| && forall i :: 0 <= i < |items| ==> items[i].analysis == analyses[i]
  }

  /** The submitted numbers stay in the rows over every run: the analyses in their order and the limit. */
  lemma {:induction false} RunKeepsSubmission(analyses: seq<nat>, maxParallel: int, steps: seq<Step>)
    ensures var b := Run(NewBatch(analyses, maxParallel), steps);
            b.row.maxParallel == maxParallel && b.row.total == |analyses| && HasAnalyses(b.items, analyses)
  {
    if steps != [] {
      RunKeepsSubmission(analyses, maxParallel, steps[..|steps| - 1]);
    }
  }

  /** Whatever happened since the submission, a scheduling call leaves as many items active as were
      submitted as the limit, unless nothing is left to dispatch; and never more are active. */
  lemma SubmittedLimitIsUsed(analyses: seq<nat>, maxParallel: int, steps: seq<Step>)
    requires |analyses| >= 1 && maxParallel >= 1
    ensures var b := Run(NewBatch(analyses, maxParallel), steps);
            Count(b.items, ActiveKind) <= maxParallel &&
            (Count(Apply(b, Schedule).items, PendingKind) > 0 ==>
              Count(Apply(b, Schedule).items, ActiveKind) == maxParallel)
  {
    var b := Run(NewBatch(analyses, maxParallel), steps);
    RunKeepsBatchInv(analyses, maxParallel, steps);
    RunKeepsSubmission(analyses, maxParallel, steps);
    CountsSum(b.items);
    ScheduleFills(b);
  }

  /** A started batch that has not ended always has an active item, and the terminal event of that item
      is effective: the batch can only be waiting for events of active items. */
  lemma ActiveItemCanEnd(b: State, outcome: Outcome) returns (i: nat)
    requires BatchInv(b) && b.row.status.BatchRunning?
    requires forall i, j :: 0 <= i < j < |b.items| ==> b.items[i].analysis != b.items[j].analysis
    ensures i < |b.items| && KindOf(b.items[i].status).ActiveKind? && i in b.requests
    ensures Effective(b, Terminal(b.items[i].analysis, outcome))
  {
    CountZeroIff(b.items, ActiveKind);
    i :| 0 <= i < |b.items| && KindOf(b.items[i].status).ActiveKind?;
    assert FindItem(b.items, b.items[i].analysis) == Some(i);
    StepEndsOne(b, Terminal(b.items[i].analysis, outcome));
  }
}
