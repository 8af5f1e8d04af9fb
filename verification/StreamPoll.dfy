/** The server-sent-events poller over the stream table, and clients that resume it with
    Last-Event-ID (section 9.2 of the WHATWG HTML standard). */
module StreamPoll {
  import opened Wrappers
  import opened StreamLog

  const LIMIT: nat := 1000

  /** `answer` is what SELECT … WHERE seq > after ORDER BY seq LIMIT 1000 may return on `rows`. */
  predicate IsAnswer(rows: seq<Row>, after: nat, answer: seq<Row>) {
    |answer| <= LIMIT &&
    (forall i :: 0 <= i < |answer| ==> answer[i] in rows && answer[i].seqNo > after) &&
    (forall i, j :: 0 <= i < j < |answer| ==> answer[i].seqNo < answer[j].seqNo) &&
    (forall r :: r in rows && r.seqNo > after && r !in answer ==>
      |answer| == LIMIT && answer[LIMIT - 1].seqNo < r.seqNo)
  }

  /** On a contiguous log the answer is the next slice. */
  function Slice(rows: seq<Row>, after: nat): (r: seq<Row>)
    ensures |r| == if after >= |rows| then 0 else Min(LIMIT, |rows| - after)
    ensures forall i :: 0 <= i < |r| ==> r[i] == rows[after + i]
  {
    if after >= |rows| then [] else rows[after..Min(after + LIMIT, |rows|)]
  }

  lemma {:induction false} AnswerCounts(rows: seq<Row>, after: nat, answer: seq<Row>, i: nat)
    requires Contiguous(rows) && IsAnswer(rows, after, answer) && i < |answer|
    ensures answer[i].seqNo == after + 1 + i && after + i < |rows| && answer[i] == rows[after + i]
  {
    if i > 0 {
      AnswerCounts(rows, after, answer, i - 1);
    }
    var k :| 0 <= k < |rows| && rows[k] == answer[i];
    var next := rows[after + i];
    assert next in rows && next.seqNo == after + 1 + i <= answer[i].seqNo;
    assert next in answer;
    var j :| 0 <= j < |answer| && answer[j] == next;
    if j < i {
      AnswerCounts(rows, after, answer, j);
    }
  }

  lemma LaterRowIsLeftOut(rows: seq<Row>, after: nat, answer: seq<Row>, k: nat)
    requires Contiguous(rows) && IsAnswer(rows, after, answer) && after + |answer| <= k < |rows|
    ensures rows[k] !in answer
  {
    forall j | 0 <= j < |answer|
      ensures answer[j] != rows[k]
    {
      AnswerCounts(rows, after, answer, j);
    }
  }

  lemma AnswerIsSlice(rows: seq<Row>, after: nat, answer: seq<Row>)
    requires Contiguous(rows) && IsAnswer(rows, after, answer)
    ensures answer == Slice(rows, after)
  {
    forall i | 0 <= i < |answer|
      ensures after + i < |rows| && answer[i] == rows[after + i]
    {
      AnswerCounts(rows, after, answer, i);
    }
    var slice := Slice(rows, after);
    if answer != [] {
      AnswerCounts(rows, after, answer, |answer| - 1);
    }
    if after + |answer| < |rows| {
      LaterRowIsLeftOut(rows, after, answer, after + |answer|);
      assert rows[after + |answer|] in rows;
    }
    assert |answer| == |slice| && forall i :: 0 <= i < |slice| ==> slice[i] == answer[i];
  }

  lemma SliceIsAnswer(rows: seq<Row>, after: nat)
    requires Contiguous(rows)
    ensures IsAnswer(rows, after, Slice(rows, after))
  {
    var slice := Slice(rows, after);
    assert forall i :: 0 <= i < |slice| ==> slice[i].seqNo == after + 1 + i;
    forall k | after <= k < after + |slice|
      ensures rows[k] in slice
    {
      assert slice[k - after] == rows[k];
    }
    forall r | r in rows && r.seqNo > after && r !in slice
      ensures |slice| == LIMIT && slice[LIMIT - 1].seqNo < r.seqNo
    {
      var k :| 0 <= k < |rows| && rows[k] == r;
      assert k >= after + |slice|;
    }
  }

  /** On a contiguous log the query has exactly one answer: the next slice. */
  lemma QueryIsSliceIff(rows: seq<Row>, after: nat, answer: seq<Row>)
    requires Contiguous(rows)
    ensures IsAnswer(rows, after, answer) <==> answer == Slice(rows, after)
  {
    SliceIsAnswer(rows, after);
    if IsAnswer(rows, after, answer) {
      AnswerIsSlice(rows, after, answer);
    }
  }

  predicate SeesTerminal(rows: seq<Row>) {
    exists i :: 0 <= i < |rows| && rows[i].terminal
  }

  /** The database as one service call finds it. */
  datatype View = View(rows: seq<Row>, statusTerminal: bool)

  /** Successive calls of a session see a log that only grows. */
  predicate Growing(views: seq<View>) {
    views == [] ||
    (Growing(views[..|views| - 1]) && Contiguous(views[|views| - 1].rows) &&
     (|views| > 1 ==> views[|views| - 2].rows <= views[|views| - 1].rows))
  }

  lemma {:induction false} GrowingAt(views: seq<View>, i: nat)
    requires Growing(views) && i < |views|
    ensures Contiguous(views[i].rows) && (i > 0 ==> views[i - 1].rows <= views[i].rows)
  {
    if i < |views| - 1 {
      GrowingAt(views[..|views| - 1], i);
    }
  }

  lemma {:induction false} CommittedGrowsAlong(steps: seq<Step>, a: nat, b: nat)
    requires a <= b <= |steps|
    ensures Run(EmptyLog(), steps[..a]).committed <= Run(EmptyLog(), steps[..b]).committed
  {
    if a < b {
      CommittedGrowsAlong(steps, a, b - 1);
      assert steps[..b][..b - 1] == steps[..b - 1];
      assert steps[..b] == steps[..b - 1] + [steps[b - 1]];
    }
  }

  /** A session that queries the log at successive points of any run of its writers sees such views. */
  lemma {:induction false} RunViewsGrow(steps: seq<Step>, at: seq<nat>, views: seq<View>)
    requires |views| == |at| && forall i :: 0 <= i < |at| ==> at[i] <= |steps|
    requires forall i, j :: 0 <= i <= j < |at| ==> at[i] <= at[j]
    requires forall i :: 0 <= i < |at| ==> views[i].rows == Run(EmptyLog(), steps[..at[i]]).committed
    ensures Growing(views)
  {
    if views != [] {
      var n := |views| - 1;
      RunViewsGrow(steps, at[..n], views[..n]);
      CommittedSeqsAreContiguous(steps[..at[n]]);
      if n > 0 {
        CommittedGrowsAlong(steps, at[n - 1], at[n]);
      }
    }
  }

  /** `out` is the run of events that follows number `after` in the log. */
  predicate Continues(out: seq<Row>, after: nat, log: seq<Row>) {
    out == [] || (after + |out| <= |log| && out == log[after..after + |out|])
  }

  method StreamEvents(rows: seq<Row>, after: nat) returns (answer: seq<Row>)
    requires Contiguous(rows)
    ensures answer == Slice(rows, after)
  {
    answer := [];
    var i := 0;
    while i < |rows| && |answer| < LIMIT
      invariant 0 <= i <= |rows| && |answer| <= LIMIT
      invariant answer == if i <= after then [] else rows[after..i]
    {
      if rows[i].seqNo > after {
        answer := answer + [rows[i]];
      }
      i := i + 1;
    }
  }

  lemma SeesTerminalNext(rows: seq<Row>, i: nat)
    requires i < |rows|
    ensures SeesTerminal(rows[..i + 1]) <==> SeesTerminal(rows[..i]) || rows[i].terminal
  {
  }

  /** Emits one answer: keeps the greatest number seen and notes a terminal event. */
  method EmitAll(out: seq<Row>, answer: seq<Row>, after: nat, last: nat)
    returns (emitted: seq<Row>, last': nat, terminal: bool)
    requires last == after + |out|
    requires forall i :: 0 <= i < |answer| ==> answer[i].seqNo == last + 1 + i
    ensures emitted == out + answer && last' == after + |emitted|
    ensures terminal <==> SeesTerminal(answer)
  {
    emitted, last', terminal := out, last, false;
    for i := 0 to |answer|
      invariant emitted == out + answer[..i] && last' == last + i
      invariant terminal <==> SeesTerminal(answer[..i])
    {
      SeesTerminalNext(answer, i);
      last' := Max(last', answer[i].seqNo);
      terminal := answer[i].terminal || terminal;
      emitted := emitted + [answer[i]];
    }
    assert answer[..|answer|] == answer;
  }

  // --- One session ---

  /** What a session has sent after `n` queries.  Query `k` sees the log `views[k].rows` and asks after the
      last number sent; the look at the status that follows it sees `views[k].statusTerminal`. */
  function Sent(views: seq<View>, after: nat, n: nat): seq<Row>
    requires n <= |views|
    decreases n, 0
  {
    if n == 0 then [] else Sent(views, after, n - 1) + PageOf(views, after, n - 1)
  }

  /** The answer to query `n`, counted from zero. */
  function PageOf(views: seq<View>, after: nat, n: nat): seq<Row>
    requires n < |views|
    decreases n, 1
  {
    Slice(views[n].rows, after + |Sent(views, after, n)|)
  }

  /** None of the first `n` pages has a terminal event. */
  predicate NoTerminalPage(views: seq<View>, after: nat, n: nat)
    requires n <= |views|
  {
    n == 0 || (NoTerminalPage(views, after, n - 1) && !SeesTerminal(PageOf(views, after, n - 1)))
  }

  /** The status was live at the first `n` looks. */
  predicate LiveLooks(views: seq<View>, n: nat)
    requires n <= |views|
  {
    forall k :: 0 <= k < n ==> !views[k].statusTerminal
  }

  datatype Ending = Disconnected | OnTerminalEvent | OnStatus

  /** A session: the events sent, how it ended, and the number of queries it made. */
  datatype Session = Session(out: seq<Row>, ending: Ending, queries: nat)

  /** The session sent what its queries found and ended at the first reason to: a page with a terminal
      event, the page after a look that found the analysis ended, or the client leaving before either. */
  predicate SessionFits(views: seq<View>, after: nat, s: Session) {
    0 < s.queries <= |views| && s.out == Sent(views, after, s.queries) &&
    NoTerminalPage(views, after, s.queries - 1) &&
    match s.ending
    case Disconnected =>
      s.queries == |views| && !SeesTerminal(PageOf(views, after, s.queries - 1)) && LiveLooks(views, s.queries - 1)
    case OnTerminalEvent => SeesTerminal(PageOf(views, after, s.queries - 1)) && LiveLooks(views, s.queries - 1)
    case OnStatus => s.queries >= 2 && LiveLooks(views, s.queries - 2) && views[s.queries - 2].statusTerminal
  }

  method Page(rows: seq<Row>, out: seq<Row>, after: nat, last: nat)
      returns (emitted: seq<Row>, last': nat, terminal: bool)
    requires Contiguous(rows) && last == after + |out|
    ensures emitted == out + Slice(rows, last) && last' == after + |emitted|
    ensures terminal <==> SeesTerminal(Slice(rows, last))
  {
    var answer := StreamEvents(rows, last);
    assert forall i :: 0 <= i < |answer| ==> answer[i].seqNo == last + 1 + i;
    emitted, last', terminal := EmitAll(out, answer, after, last);
  }

  lemma SentGrows(views: seq<View>, after: nat, n: nat)
    requires n < |views|
    ensures Sent(views, after, n + 1) == Sent(views, after, n) + PageOf(views, after, n)
  {
  }

  /** One query and the emission of its answer. */
  method Query(views: seq<View>, n: nat, out: seq<Row>, after: nat, last: nat)
      returns (emitted: seq<Row>, last': nat, terminal: bool)
    requires n < |views| && Contiguous(views[n].rows) && out == Sent(views, after, n) && last == after + |out|
    ensures emitted == Sent(views, after, n + 1) && last' == after + |emitted|
    ensures terminal <==> SeesTerminal(PageOf(views, after, n))
  {
    SentGrows(views, after, n);
    ghost var page := PageOf(views, after, n);
    assert page == Slice(views[n].rows, last);
    emitted, last', terminal := Page(views[n].rows, out, after, last);
  }

  /** Neither a page nor a look among the first `n` ended the session. */
  predicate GoesOn(views: seq<View>, after: nat, n: nat)
    requires n <= |views|
  {
    NoTerminalPage(views, after, n) && LiveLooks(views, n)
  }

  /** The query after a look that found the analysis ended is the last one. */
  method LastQuery(views: seq<View>, n: nat, out: seq<Row>, after: nat, last: nat) returns (s: Session)
    requires Growing(views) && 0 < n < |views| && out == Sent(views, after, n) && last == after + |out|
    requires NoTerminalPage(views, after, n) && LiveLooks(views, n - 1) && views[n - 1].statusTerminal
    ensures SessionFits(views, after, s)
  {
    GrowingAt(views, n);
    var emitted, last', terminal := Query(views, n, out, after, last);
    s := Session(emitted, OnStatus, n + 1);
  }

  /** One turn of the loop: query, emit, look.  None when the session goes on. */
  method Turn(views: seq<View>, n: nat, out: seq<Row>, after: nat, last: nat)
      returns (emitted: seq<Row>, last': nat, s: Option<Session>)
    requires Growing(views) && n < |views| && out == Sent(views, after, n) && last == after + |out|
    requires GoesOn(views, after, n)
    ensures s.Some? ==> SessionFits(views, after, s.value)
    ensures s.None? ==> emitted == Sent(views, after, n + 1) && last' == after + |emitted|
    ensures s.None? ==> n + 1 < |views| && GoesOn(views, after, n + 1)
  {
    var terminal;
    GrowingAt(views, n);
    emitted, last', terminal := Query(views, n, out, after, last);
    if terminal {
      return emitted, last', Some(Session(emitted, OnTerminalEvent, n + 1));
    }
    if n + 1 == |views| {
      return emitted, last', Some(Session(emitted, Disconnected, n + 1));
    }
    if views[n].statusTerminal {
      var ended := LastQuery(views, n + 1, emitted, after, last');
      return emitted, last', Some(ended);
    }
    s := None;
  }

  /** One session; running out of views is the client leaving. */
  method Poll(views: seq<View>, after: nat) returns (s: Session)
    requires Growing(views) && |views| > 0
    ensures SessionFits(views, after, s)
  {
    var out: seq<Row>, last, n: nat, ended: Option<Session> := [], after, 0, None;
    while ended.None?
      invariant ended.None? ==> n < |views| && out == Sent(views, after, n) && last == after + |out|
      invariant ended.None? ==> GoesOn(views, after, n)
      invariant ended.Some? ==> SessionFits(views, after, ended.value)
      decreases ended.None?, |views| - n
    {
      out, last, ended := Turn(views, n, out, after, last);
      n := n + 1;
    }
    s := ended.value;
  }

  // --- What a session delivers ---

  lemma SliceContinues(out: seq<Row>, after: nat, now: seq<Row>)
    requires Contiguous(now) && Continues(out, after, now)
    ensures Continues(out + Slice(now, after + |out|), after, now)
  {
  }

  lemma ContinuesLater(out: seq<Row>, after: nat, earlier: seq<Row>, now: seq<Row>)
    requires earlier <= now && Continues(out, after, earlier)
    ensures Continues(out, after, now)
  {
  }

  lemma {:induction false} LogsGrow(views: seq<View>, i: nat, j: nat)
    requires Growing(views) && i <= j < |views|
    ensures views[i].rows <= views[j].rows
  {
    if i < j {
      LogsGrow(views, i, j - 1);
      GrowingAt(views, j);
    }
  }

  /** What was sent is the run of events right after `after`. */
  lemma {:induction false} SentContinues(views: seq<View>, after: nat, n: nat)
    requires Growing(views) && 0 < n <= |views|
    ensures Continues(Sent(views, after, n), after, views[n - 1].rows)
  {
    GrowingAt(views, n - 1);
    if n > 1 {
      SentContinues(views, after, n - 1);
      LogsGrow(views, n - 2, n - 1);
      ContinuesLater(Sent(views, after, n - 1), after, views[n - 2].rows, views[n - 1].rows);
    }
    SliceContinues(Sent(views, after, n - 1), after, views[n - 1].rows);
  }

  /** What query `k` could see is sent a page at a time: with every query from then on the session is one
      page further, or past it. */
  lemma {:induction false} SentReaches(views: seq<View>, after: nat, k: nat, n: nat)
    requires Growing(views) && k < n && n <= |views|
    ensures after + |Sent(views, after, n)| >=
            Min(|views[k].rows|, after + |Sent(views, after, k)| + LIMIT * (n - k))
  {
    LogsGrow(views, k, n - 1);
    if k < n - 1 {
      SentReaches(views, after, k, n - 1);
    }
  }

  lemma {:induction false} SentSeesTerminal(views: seq<View>, after: nat, n: nat)
    requires n <= |views|
    ensures SeesTerminal(Sent(views, after, n)) <==> !NoTerminalPage(views, after, n)
  {
    if n > 0 {
      SentSeesTerminal(views, after, n - 1);
      SeesTerminalIn(Sent(views, after, n - 1), PageOf(views, after, n - 1));
    }
  }

  lemma SeesTerminalIn(out: seq<Row>, more: seq<Row>)
    ensures SeesTerminal(out + more) <==> SeesTerminal(out) || SeesTerminal(more)
  {
    if SeesTerminal(more) {
      var k :| 0 <= k < |more| && more[k].terminal;
      assert (out + more)[|out| + k] == more[k];
    }
    if SeesTerminal(out) {
      var k :| 0 <= k < |out| && out[k].terminal;
      assert (out + more)[k] == out[k];
    }
  }

  /** Every session sends the events right after `after`, without gap or repeat, and at least what any of
      its queries could see as far as the pages since then go, the page of its last query in full. */
  lemma SessionDelivers(views: seq<View>, after: nat, s: Session, k: nat)
    requires Growing(views) && SessionFits(views, after, s) && k < s.queries
    ensures Continues(s.out, after, views[s.queries - 1].rows)
    ensures after + |s.out| >= Min(|views[k].rows|, after + |Sent(views, after, k)| + LIMIT * (s.queries - k))
    ensures after + |s.out| >= Min(|views[0].rows|, after + LIMIT * s.queries)
  {
    SentContinues(views, after, s.queries);
    SentReaches(views, after, k, s.queries);
    SentReaches(views, after, 0, s.queries);
  }

  /** It ends without a terminal event only because the client left or the analysis was seen to have
      ended, and then one more page was asked for; looks before that found it live, and a client that left
      was sent no terminal event. */
  lemma SessionEndsForAReason(views: seq<View>, after: nat, s: Session)
    requires SessionFits(views, after, s)
    ensures s.ending.OnTerminalEvent? ==> SeesTerminal(s.out)
    ensures s.ending.Disconnected? ==> s.queries == |views| && !SeesTerminal(s.out)
    ensures s.ending.OnStatus? ==> s.queries >= 2 && views[s.queries - 2].statusTerminal
    ensures forall k :: 0 <= k && k + 1 < s.queries && views[k].statusTerminal ==>
              k + 2 == s.queries && s.ending.OnStatus?
  {
    SentSeesTerminal(views, after, s.queries);
  }

  predicate AllFull(views: seq<View>, after: nat, n: nat)
    requires n <= |views|
  {
    n == 0 || (AllFull(views, after, n - 1) && |PageOf(views, after, n - 1)| == LIMIT)
  }

  /** No query sends more than a page, so `n` queries send `n` pages if and only if all were full. */
  lemma {:induction false} FullIff(views: seq<View>, after: nat, n: nat)
    requires n <= |views|
    ensures |Sent(views, after, n)| <= LIMIT * n
    ensures |Sent(views, after, n)| == LIMIT * n <==> AllFull(views, after, n)
  {
    if n > 0 {
      FullIff(views, after, n - 1);
    }
  }

  /** After `n` queries a session is `n` pages on, or at the end of the log that its last query saw, if
      and only if every page was full or the last one reached that end: a log that grows by more than a
      page behind a short page is not made up for. */
  lemma PagesOnIff(views: seq<View>, after: nat, n: nat)
    requires 0 < n <= |views|
    ensures after + |Sent(views, after, n)| >= Min(|views[n - 1].rows|, after + LIMIT * n) <==>
            after + |Sent(views, after, n)| >= |views[n - 1].rows| || AllFull(views, after, n)
  {
    FullIff(views, after, n);
  }

  /** A first query on the empty log and a second one on 2000 events: one page was sent. */
  lemma ShortPageIsNotMadeUp() returns (views: seq<View>)
    ensures Growing(views) && |views| == 2 && |views[1].rows| == 2000 && |Sent(views, 0, 2)| == 1000
  {
    var log := seq(2 * LIMIT, i requires 0 <= i < 2 * LIMIT => Row(i + 1, false, None));
    views := [View([], false), View(log, false)];
    assert views[..1][..0] == [] && Growing([]);
    assert Growing(views[..1]);
    assert Sent(views, 0, 1) == [];
  }

  /** What a session sends when the log is finished and the analysis has ended before it asks. */
  function FinishedSession(log: seq<Row>, after: nat): seq<Row> {
    var first := Slice(log, after);
    if SeesTerminal(first) then first else first + Slice(log, after + |first|)
  }

  /** Opened on a finished log of an ended analysis, a session whose client stays is that one. */
  lemma FinishedLogGivesFinishedSession(views: seq<View>, after: nat, s: Session)
    requires SessionFits(views, after, s) && |views| >= 2
    requires views[0].statusTerminal && views[1].rows == views[0].rows
    ensures s.out == FinishedSession(views[0].rows, after) && !s.ending.Disconnected?
  {
    var first := Slice(views[0].rows, after);
    assert Sent(views, after, 0) == [] && PageOf(views, after, 0) == first;
    assert Sent(views, after, 1) == first;
    if s.queries > 1 {
      NoTerminalFirst(views, after, s.queries - 1);
      assert s.queries == 2;
      SecondPage(views, after, first);
    }
  }

  lemma SecondPage(views: seq<View>, after: nat, first: seq<Row>)
    requires |views| >= 2 && Sent(views, after, 1) == first
    ensures Sent(views, after, 2) == first + Slice(views[1].rows, after + |first|)
  {
  }

  lemma {:induction false} NoTerminalFirst(views: seq<View>, after: nat, n: nat)
    requires 0 < n <= |views| && NoTerminalPage(views, after, n)
    ensures !SeesTerminal(PageOf(views, after, 0))
  {
    if n > 1 {
      NoTerminalFirst(views, after, n - 1);
    }
  }

  /** With no terminal event in the first page, the session sends a second one and stops there; with
      one, it stops after the first.  So a session opened on the finished log of an ended analysis
      delivers all that is left if and only if it fits into the pages it asks for. */
  lemma FinishedSessionIsCompleteIff(log: seq<Row>, after: nat)
    requires Contiguous(log) && after <= |log|
    ensures Continues(FinishedSession(log, after), after, log)
    ensures after + |FinishedSession(log, after)| == |log| <==>
            |log| - after <= if SeesTerminal(Slice(log, after)) then LIMIT else 2 * LIMIT
  {
    assert Continues(Slice(log, after), after, log) by {
      assert Continues([], after, log) && [] + Slice(log, after) == Slice(log, after);
      SliceContinues([], after, log);
    }
    SliceContinues(Slice(log, after), after, log);
  }

  /** 2001 events, the last one terminal: a session from the start sends 2000 of them and ends without
      the terminal one. */
  lemma LongLogIsCutShort() returns (log: seq<Row>)
    ensures Contiguous(log) && |log| == 2001 && log[2000].terminal
    ensures |FinishedSession(log, 0)| == 2000 && !SeesTerminal(FinishedSession(log, 0))
  {
    log := seq(2 * LIMIT + 1, i requires 0 <= i < 2 * LIMIT + 1 => Row(i + 1, i == 2 * LIMIT, None));
  }

  // --- Resuming ---

  function Flat(sessions: seq<seq<Row>>): seq<Row> {
    if sessions == [] then [] else Flat(sessions[..|sessions| - 1]) + sessions[|sessions| - 1]
  }

  /** Each session starts after the last id that the client received. */
  predicate Chained(sessions: seq<seq<Row>>, after: nat, log: seq<Row>) {
    sessions == [] ||
    (Chained(sessions[..|sessions| - 1], after, log) &&
     Continues(sessions[|sessions| - 1], after + |Flat(sessions[..|sessions| - 1])|, log))
  }

  lemma ContinuesJoin(first: seq<Row>, second: seq<Row>, after: nat, log: seq<Row>)
    requires Continues(first, after, log) && Continues(second, after + |first|, log)
    ensures Continues(first + second, after, log)
  {
  }

  /** However often the client drops and resumes with Last-Event-ID, what it received is one
      contiguous run with no gap and no repeat. */
  lemma {:induction false} SessionsCompose(sessions: seq<seq<Row>>, after: nat, log: seq<Row>)
    requires Contiguous(log) && Chained(sessions, after, log)
    ensures Continues(Flat(sessions), after, log)
    ensures forall i :: 0 <= i < |Flat(sessions)| ==> Flat(sessions)[i].seqNo == after + 1 + i
  {
    if sessions != [] {
      var n := |sessions| - 1;
      SessionsCompose(sessions[..n], after, log);
      ContinuesJoin(Flat(sessions[..n]), sessions[n], after, log);
    }
  }

  /** On a finished log every session delivers at least a page of what is left. */
  predicate FullPages(sessions: seq<seq<Row>>, after: nat, log: seq<Row>) {
    sessions == [] ||
    (FullPages(sessions[..|sessions| - 1], after, log) &&
     |sessions[|sessions| - 1]| >= |Slice(log, after + |Flat(sessions[..|sessions| - 1])|)|)
  }

  /** So `k` sessions reach the end of the log or get `k` pages on. */
  lemma {:induction false} ResumingReachesEnd(sessions: seq<seq<Row>>, after: nat, log: seq<Row>)
    requires FullPages(sessions, after, log)
    ensures after + |Flat(sessions)| >= Min(|log|, after + |sessions| * LIMIT)
  {
    if sessions != [] {
      ResumingReachesEnd(sessions[..|sessions| - 1], after, log);
    }
  }
}
