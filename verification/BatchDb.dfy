/** The scheduler as it runs: statement by statement on the batch row, its items and the outbox.
    Each handler call's net effect is the matching `Batch` step. */
module BatchDb {
  import opened Wrappers
  import opened Batch

  /** The counters after the items before `n`. */
  predicate Counted(items: seq<Item>, n: nat, pending: nat, active: nat, completed: nat, failed: nat, cancelled: nat)
    requires n <= |items|
  {
    pending == Count(items[..n], PendingKind) && active == Count(items[..n], ActiveKind) &&
    completed == Count(items[..n], CompletedKind) && failed == Count(items[..n], FailedKind) &&
    cancelled == Count(items[..n], CancelledKind)
  }

  lemma CountNext(items: seq<Item>, n: nat)
    requires n < |items|
    ensures forall kind ::
      Count(items[..n + 1], kind) == Count(items[..n], kind) + if KindOf(items[n].status) == kind then 1 else 0
  {
    assert items[..n + 1][..n] == items[..n];
  }

  /** Item `n` is claimed if it is pending and fewer than `limit` were claimed before it. */
  lemma ClaimNext(items: seq<Item>, limit: nat, n: nat)
    requires n < |items|
    ensures Claims(items, limit, n) <==> items[n].status.Pending? && |ClaimedBelow(items, limit, n)| < limit
  {
    ClaimCounts(items, limit, n);
  }

  class Scheduler {
    var row: Row
    var items: seq<Item>
    var requests: seq<nat>

    ghost function Model(): State
      reads this
    {
      State(row, items, requests)
    }

    /** `create_batch`: the row, then one pending item after another in submission order. */
    constructor (analyses: seq<nat>, maxParallel: int)
      ensures Model() == NewBatch(analyses, maxParallel)
      ensures row == Row(BatchQueued, maxParallel, |analyses|, |analyses|, 0, 0, 0, 0) && requests == []
      ensures |items| == |analyses| && forall i :: 0 <= i < |items| ==> items[i] == Item(analyses[i], Pending, false)
    {
      row := Row(BatchQueued, maxParallel, |analyses|, |analyses|, 0, 0, 0, 0);
      items, requests := [], [];
      new;
      for n := 0 to |analyses|
        invariant row == Row(BatchQueued, maxParallel, |analyses|, |analyses|, 0, 0, 0, 0) && requests == []
        invariant |items| == n && forall i :: 0 <= i < n ==> items[i] == Item(analyses[i], Pending, false)
      {
        items := items + [Item(analyses[n], Pending, false)];
      }
    }

    /** One pass over the items recomputes every stored counter and the status. */
    method RefreshCounts()
      modifies this`row
      ensures Model() == Refresh(old(Model()))
    {
      var pending, active, completed, failed, cancelled := 0, 0, 0, 0, 0;
      for n := 0 to |items|
        invariant row == old(row)
        invariant Counted(items, n, pending, active, completed, failed, cancelled)
      {
        CountNext(items, n);
        match KindOf(items[n].status) {
          case PendingKind => pending := pending + 1;
          case ActiveKind => active := active + 1;
          case CompletedKind => completed := completed + 1;
          case FailedKind => failed := failed + 1;
          case CancelledKind => cancelled := cancelled + 1;
        }
      }
      assert items[..|items|] == items;
      var status := row.status;
      if pending == 0 && active == 0 {
        status := if failed > 0 then BatchFailed else BatchCompleted;
      } else if active > 0 {
        status := BatchRunning;
      }
      row := Row(status, row.maxParallel, row.total, pending, active, completed, failed, cancelled);
    }

    /** Takes pending items in sort order until `limit` are taken. */
    method ClaimPending(limit: nat) returns (claimed: seq<nat>)
      modifies this`items
      ensures items == Batch.Claim(old(items), limit)
      ensures claimed == ClaimedIds(old(items), limit)
    {
      claimed := [];
      ghost var before, target := items, Batch.Claim(items, limit);
      for n := 0 to |items|
        invariant |items| == |before|
        invariant forall k :: 0 <= k < |items| ==> items[k] == if k < n then target[k] else before[k]
        invariant claimed == ClaimedBelow(before, limit, n)
      {
        ClaimNext(before, limit, n);
        if items[n].status.Pending? && |claimed| < limit {
          items := items[n := items[n].(status := Dispatched, dispatched := true)];
          claimed := claimed + [n];
        }
      }
      assert items == target;
    }

    /** One outbox row per claimed item. */
    method RequestEach(claimed: seq<nat>)
      modifies this`requests
      ensures requests == old(requests) + claimed
    {
      for n := 0 to |claimed|
        invariant requests == old(requests) + claimed[..n]
      {
        requests := requests + [claimed[n]];
      }
    }

    method ScheduleBatch()
      modifies this
      ensures Model() == Apply(old(Model()), Schedule)
    {
      if BatchEnded(row.status) {
        return;
      }
      if row.pending == 0 {
        RefreshCounts();
        return;
      }
      var slots := row.maxParallel - row.active;
      if slots <= 0 {
        return;
      }
      ghost var before := items;
      var claimed := ClaimPending(slots);
      if claimed == [] {
        ClaimedExactly(before, slots, |before|);
        assert items == before;
        return;
      }
      RefreshCounts();
      RequestEach(claimed);
    }

    method HandleTerminal(analysis: nat, outcome: Outcome)
      modifies this
      ensures Model() == Apply(old(Model()), Terminal(analysis, outcome))
    {
      var found := FindItem(items, analysis);
      if found.None? || Ended(items[found.value].status) {
        return;
      }
      items := items[found.value := items[found.value].(status := StatusOf(outcome))];
      RefreshCounts();
      ScheduleBatch();
    }
  }
}
