/** The event stream of one analysis: writers number rows max+1 under a transaction-scoped advisory
    lock, next to each other and to transactions that abort. */
module StreamLog {
  import opened Wrappers

  /** `terminal` tells whether the row is a terminal stream event; `key` is its idempotency key. */
  datatype Row = Row(seqNo: nat, terminal: bool, key: Option<string>)

  /** `next` is the number read by the latest MAX(seq)+1 of the transaction. */
  datatype Txn = Txn(open: bool, next: Option<nat>, pending: seq<Row>)

  datatype Log = Log(committed: seq<Row>, lock: Option<nat>, txns: seq<Txn>)

  datatype Step =
    | Begin
    | Lock(t: nat)
    | ReadNext(t: nat)
    | Insert(t: nat, terminal: bool, key: Option<string>)
    | Commit(t: nat)
    | Abort(t: nat)

  function MaxSeq(rows: seq<Row>): nat {
    if rows == [] then 0
    else
      var rest := MaxSeq(rows[..|rows| - 1]);
      if rows[|rows| - 1].seqNo > rest then rows[|rows| - 1].seqNo else rest
  }

  predicate KeyTaken(rows: seq<Row>, key: Option<string>) {
    key.Some? && exists i :: 0 <= i < |rows| && rows[i].key == key
  }

  predicate Open(log: Log, t: nat) {
    t < |log.txns| && log.txns[t].open
  }

  /** The rows a transaction sees: committed ones and its own. */
  function Visible(log: Log, t: nat): seq<Row>
    requires t < |log.txns|
  {
    log.committed + log.txns[t].pending
  }

  function Ended(log: Log, t: nat): Log
    requires t < |log.txns|
  {
    log.(lock := if log.lock == Some(t) then None else log.lock, txns := log.txns[t := Txn(false, None, [])])
  }

  /** A blocked Lock changes nothing: the writer tries again.  A writer inserts only a number it has
      read, which it does only after taking the lock. */
  function Apply(log: Log, step: Step): Log {
    match step
    case Begin => log.(txns := log.txns + [Txn(true, None, [])])
    case Lock(t) => if Open(log, t) && log.lock.None? then log.(lock := Some(t)) else log
    case ReadNext(t) =>
      if Open(log, t) && log.lock == Some(t)
      then log.(txns := log.txns[t := log.txns[t].(next := Some(MaxSeq(Visible(log, t)) + 1))]) else log
    case Insert(t, terminal, key) =>
      if Open(log, t) && log.txns[t].next.Some? && !KeyTaken(Visible(log, t), key)
      then
        var n := log.txns[t].next.value;
        log.(txns := log.txns[t := Txn(true, Some(n + 1), log.txns[t].pending + [Row(n, terminal, key)])])
      else log
    case Commit(t) =>
      if Open(log, t) then Ended(log, t).(committed := log.committed + log.txns[t].pending) else log
    case Abort(t) => if Open(log, t) then Ended(log, t) else log
  }

  function Run(log: Log, steps: seq<Step>): Log {
    if steps == [] then log else Apply(Run(log, steps[..|steps| - 1]), steps[|steps| - 1])
  }

  function EmptyLog(): Log {
    Log([], None, [])
  }

  /** The numbers are exactly 1..n, in order. */
  predicate Contiguous(rows: seq<Row>) {
    forall i :: 0 <= i < |rows| ==> rows[i].seqNo == i + 1
  }

  predicate KeysDistinct(rows: seq<Row>) {
    forall i, j :: 0 <= i < j < |rows| && rows[i].key.Some? ==> rows[i].key != rows[j].key
  }

  lemma {:induction false} ContiguousMax(rows: seq<Row>)
    requires Contiguous(rows)
    ensures MaxSeq(rows) == |rows|
  {
    if rows != [] {
      ContiguousMax(rows[..|rows| - 1]);
    }
  }

  /** Only the lock holder has rows of its own, and they continue the committed numbering. */
  predicate TxnInv(committed: seq<Row>, txn: Txn, holds: bool) {
    if holds then
      txn.open && Contiguous(committed + txn.pending) && KeysDistinct(committed + txn.pending) &&
      (txn.next.Some? ==> txn.next.value == |committed + txn.pending| + 1)
    else txn.pending == [] && txn.next.None?
  }

  predicate LogInv(log: Log) {
    Contiguous(log.committed) && KeysDistinct(log.committed) && (log.lock.Some? ==> log.lock.value < |log.txns|) &&
    forall t :: 0 <= t < |log.txns| ==> TxnInv(log.committed, log.txns[t], log.lock == Some(t))
  }

  lemma InsertKeepsTxn(committed: seq<Row>, txn: Txn, row: Row)
    requires TxnInv(committed, txn, true) && txn.next == Some(row.seqNo) && !KeyTaken(committed + txn.pending, row.key)
    ensures TxnInv(committed, Txn(true, Some(row.seqNo + 1), txn.pending + [row]), true)
  {
    assert committed + (txn.pending + [row]) == (committed + txn.pending) + [row];
  }

  lemma StepKeepsLogInv(log: Log, step: Step)
    requires LogInv(log)
    ensures LogInv(Apply(log, step))
  {
    match step
    case Begin =>
    case Lock(t) =>
      if Open(log, t) && log.lock.None? {
        assert log.committed + log.txns[t].pending == log.committed;
      }
    case ReadNext(t) =>
      if Open(log, t) && log.lock == Some(t) {
        ContiguousMax(Visible(log, t));
      }
    case Insert(t, terminal, key) =>
      if Open(log, t) && log.txns[t].next.Some? && !KeyTaken(Visible(log, t), key) {
        InsertKeepsTxn(log.committed, log.txns[t], Row(log.txns[t].next.value, terminal, key));
      }
    case Commit(t) =>
      if Open(log, t) && log.lock != Some(t) {
        assert log.committed + log.txns[t].pending == log.committed;
      }
    case Abort(t) =>
  }

  /** Under any interleaving of writers, aborts and repeated keyed writes, the committed numbers of the
      analysis are exactly 1..n and no idempotency key occurs twice. */
  lemma {:induction false} CommittedSeqsAreContiguous(steps: seq<Step>)
    ensures LogInv(Run(EmptyLog(), steps))
  {
    if steps != [] {
      var n := |steps| - 1;
      CommittedSeqsAreContiguous(steps[..n]);
      StepKeepsLogInv(Run(EmptyLog(), steps[..n]), steps[n]);
    }
  }

  /** Committed rows are never changed, removed or renumbered. */
  lemma {:induction false} CommittedOnlyGrows(log: Log, steps: seq<Step>)
    ensures log.committed <= Run(log, steps).committed
  {
    if steps != [] {
      CommittedOnlyGrows(log, steps[..|steps| - 1]);
    }
  }

  function WriterSteps(t: nat, terminal: bool, key: Option<string>, end: Step): seq<Step> {
    [Begin, Lock(t), ReadNext(t), Insert(t, terminal, key), end]
  }

  lemma RunStep(log: Log, steps: seq<Step>, step: Step)
    ensures Run(log, steps + [step]) == Apply(Run(log, steps), step)
  {
    assert (steps + [step])[..|steps|] == steps;
  }

  /** A writer that finds the lock free appends its row under the next number, or nothing if the key is
      taken or the transaction aborts, and gives the lock back. */
  lemma LoneWriterAppends(log: Log, terminal: bool, key: Option<string>, commit: bool)
    requires LogInv(log) && log.lock.None?
    ensures var t := |log.txns|;
            var after := Run(log, WriterSteps(t, terminal, key, if commit then Commit(t) else Abort(t)));
            var taken := key.Some? && exists i :: 0 <= i < |log.committed| && log.committed[i].key == key;
            after.lock.None? && |after.txns| == t + 1 && after.txns[..t] == log.txns && !after.txns[t].open &&
            after.committed ==
            if commit && !taken then log.committed + [Row(|log.committed| + 1, terminal, key)] else log.committed
  {
    var t := |log.txns|;
    var end := if commit then Commit(t) else Abort(t);
    var started := WriterStarts(log);
    var inserted := Apply(started, Insert(t, terminal, key));
    ContiguousMax(log.committed);
    assert Visible(started, t) == log.committed;
    WriterRuns(log, terminal, key, end);
    assert Apply(inserted, end).txns[..t] == log.txns;
  }

  /** Begun, locked, and the next number read. */
  lemma WriterStarts(log: Log) returns (started: Log)
    requires LogInv(log) && log.lock.None?
    ensures var t := |log.txns|;
            started == Apply(Apply(Apply(log, Begin), Lock(t)), ReadNext(t)) &&
            started == Log(log.committed, Some(t), log.txns + [Txn(true, Some(|log.committed| + 1), [])])
  {
    var t := |log.txns|;
    ContiguousMax(log.committed);
    var locked := Apply(Apply(log, Begin), Lock(t));
    assert locked == Log(log.committed, Some(t), log.txns + [Txn(true, None, [])]);
    assert Visible(locked, t) == log.committed;
    started := Apply(locked, ReadNext(t));
    assert started.txns == log.txns + [Txn(true, Some(|log.committed| + 1), [])];
  }

  lemma WriterRuns(log: Log, terminal: bool, key: Option<string>, end: Step)
    ensures var t := |log.txns|;
            Run(log, WriterSteps(t, terminal, key, end)) ==
            Apply(Apply(Apply(Apply(Apply(log, Begin), Lock(t)), ReadNext(t)), Insert(t, terminal, key)), end)
  {
    var t := |log.txns|;
    RunsFive(log, Begin, Lock(t), ReadNext(t), Insert(t, terminal, key), end);
  }

  lemma RunsFive(log: Log, a: Step, b: Step, c: Step, d: Step, e: Step)
    ensures Run(log, [a, b, c, d, e]) == Apply(Apply(Apply(Apply(Apply(log, a), b), c), d), e)
  {
    RunsThree(log, a, b, c);
    var three := Run(log, [a, b, c]);
    RunStep(log, [a, b, c], d);
    RunStep(log, [a, b, c, d], e);
    assert [a, b, c] + [d] == [a, b, c, d] && [a, b, c, d] + [e] == [a, b, c, d, e];
  }

  lemma RunsThree(log: Log, a: Step, b: Step, c: Step)
    ensures Run(log, [a, b, c]) == Apply(Apply(Apply(log, a), b), c)
  {
    assert Run(log, []) == log;
    RunStep(log, [], a);
    RunStep(log, [a], b);
    RunStep(log, [a, b], c);
    assert [] + [a] == [a] && [a] + [b] == [a, b] && [a, b] + [c] == [a, b, c];
  }

  /** One transaction on the stream table, as the writers run it. */
  class Writer {
    const committed: seq<Row>
    var pending: seq<Row>

    constructor (committed: seq<Row>)
      ensures this.committed == committed && pending == []
    {
      this.committed := committed;
      pending := [];
    }

    method NextSeq() returns (n: nat)
      ensures n == MaxSeq(committed + pending) + 1
    {
      n := 0;
      var rows := committed + pending;
      for i := 0 to |rows|
        invariant n == MaxSeq(rows[..i])
      {
        assert rows[..i + 1][..i] == rows[..i];
        n := if rows[i].seqNo > n then rows[i].seqNo else n;
      }
      assert rows[..|rows|] == rows;
      n := n + 1;
    }

    /** `add_stream_event_on_connection`. */
    method AddEvent(terminal: bool, key: Option<string>)
      requires Contiguous(committed + pending)
      modifies this
      ensures Contiguous(committed + pending)
      ensures pending == old(pending) +
              if KeyTaken(committed + old(pending), key) then []
              else [Row(|committed + old(pending)| + 1, terminal, key)]
    {
      var n := NextSeq();
      ContiguousMax(committed + pending);
      if !KeyTaken(committed + pending, key) {
        pending := pending + [Row(n, terminal, key)];
        assert committed + pending == (committed + old(pending)) + [Row(n, terminal, key)];
      }
    }

    /** `_add_cancelled_stream_events`: one read of the next number, then "status" and "done". */
    method AddCancelled()
      requires Contiguous(committed + pending)
      modifies this
      ensures Contiguous(committed + pending)
      ensures pending ==
              old(pending) +
              [Row(|committed + old(pending)| + 1, true, None), Row(|committed + old(pending)| + 2, true, None)]
    {
      var next := NextSeq();
      ContiguousMax(committed + pending);
      for offset := 0 to 2
        invariant pending == old(pending) + [Row(next, true, None), Row(next + 1, true, None)][..offset]
      {
        pending := pending + [Row(next + offset, true, None)];
      }
      assert committed + pending == (committed + old(pending)) + [Row(next, true, None), Row(next + 1, true, None)];
    }
  }
}
