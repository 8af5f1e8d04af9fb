/** The transactions as the repositories run them: one guarded statement after another on mutable
    tables.  Each method's net effect is the matching `Platform` step. */
module PlatformDb {
  import opened Wrappers
  import opened Platform

  /** `ids[k]` is the row that request `k` resolved to. */
  predicate Resolved(calls: seq<Call>, g: nat, requests: seq<Request>, ids: seq<nat>) {
    |ids| <= |requests| && forall k :: 0 <= k < |ids| ==> FindCall(calls, g, requests[k].externalId) == Some(ids[k])
  }

  lemma ResolvedNext(calls: seq<Call>, g: nat, t: nat, requests: seq<Request>, ids: seq<nat>, id: nat)
    requires |ids| < |requests| && Resolved(calls, g, requests, ids)
    requires FindCall(InsertCall(calls, g, t, requests[|ids|]), g, requests[|ids|].externalId) == Some(id)
    ensures Resolved(InsertCall(calls, g, t, requests[|ids|]), g, requests, ids + [id])
  {
  }

  class Tables {
    var analyses: seq<AnalysisStatus>
    var sessions: seq<Session>
    var turns: seq<Turn>
    var calls: seq<Call>
    var outbox: seq<Event>
    ghost var batched: set<nat>
    ghost var issued: set<Token>
    ghost var owed: set<nat>
    ghost var lost: set<nat>

    ghost function Model(): Db
      reads this
    {
      Db(analyses, sessions, turns, calls, outbox, batched, issued, owed, lost)
    }

    constructor ()
      ensures Model() == Initial()
    {
      analyses, sessions, turns, calls, outbox := [], [], [], [], [];
      batched, issued, owed, lost := {}, {}, {}, {};
    }

    method AddOutbox(e: Event)
      modifies this`outbox
      ensures outbox == old(outbox) + [e]
    {
      outbox := outbox + [e];
    }

    method SetAnalysis(a: nat, status: AnalysisStatus)
      requires a < |analyses|
      modifies this`analyses
      ensures analyses == old(analyses)[a := status]
    {
      analyses := analyses[a := status];
    }

    method Create(direct: bool) returns (a: nat)
      modifies this
      ensures Model() == ApplyLife(old(Model()), CreateAnalysis(direct))
      ensures a == |old(analyses)|
    {
      a := |analyses|;
      analyses := analyses + [Queued];
      sessions := sessions + [Session(a, Live(Waiting), None, 0)];
      if direct {
        AddOutbox(AnalysisRequested(a));
      } else {
        batched := batched + {a};
      }
    }

    method HandleCancel(a: nat, agent: Option<nat>)
      modifies this
      ensures Model() == ApplyLife(old(Model()), HandleCancelRequested(a, agent))
    {
      if a >= |analyses| || TerminalAnalysis(analyses[a]) {
        return;
      }
      SetAnalysis(a, Cancelled);
      sessions := CancelledSessions(sessions, a);
      if agent.Some? {
        calls := CancelledCalls(calls, agent.value);
      }
      AddOutbox(AnalysisEnded(a, Cancelled));
    }

    method Cancel(a: nat) returns (status: Option<AnalysisStatus>)
      modifies this
      ensures Model() == ApplyLife(old(Model()), ApiCancel(a))
      ensures status == if a < |analyses| then Some(analyses[a]) else None
    {
      if a >= |analyses| {
        return None;
      }
      if TerminalAnalysis(analyses[a]) {
        return Some(analyses[a]);
      }
      SetAnalysis(a, Cancelling);
      sessions := CancelledSessions(sessions, a);
      calls := CancelledCalls(calls, a);
      AddOutbox(CancelRequested(a));
      status := Some(Cancelling);
    }

    method Associate(a: nat, g: nat, snapshot: nat) returns (associated: bool)
      modifies this
      ensures Model() == ApplyLife(old(Model()), AssociateSnapshot(a, g, snapshot))
      ensures associated <==> old(SessionIsLive(Model(), g) && sessions[g].analysis == a)
    {
      if g >= |sessions| || sessions[g].analysis != a || !sessions[g].status.Live? {
        return false;
      }
      sessions := sessions[g := sessions[g].(status := Live(Waiting), snapshot := Some(snapshot))];
      if a < |analyses| && LiveAnalysis(analyses[a]) {
        SetAnalysis(a, Running);
      }
      AddOutbox(SnapshotReady(a));
      associated := true;
    }

    method MarkSnapshotFailed(a: nat, g: nat) returns (marked: bool)
      modifies this
      ensures Model() == ApplyLife(old(Model()), SnapshotFail(a, g))
      ensures marked <==> old(AnalysisIsLive(Model(), a))
    {
      if a >= |analyses| || !LiveAnalysis(analyses[a]) {
        return false;
      }
      SetAnalysis(a, Failed);
      if g < |sessions| && sessions[g].analysis == a && sessions[g].status.Live? {
        sessions := sessions[g := sessions[g].(status := SessionFailed)];
      }
      AddOutbox(SnapshotFailed(a));
      marked := true;
    }

    /** Returns True for at most one caller per analysis; that caller then owes the event. */
    method Fail(a: nat, g: nat) returns (failed: bool)
      modifies this
      ensures Model() == ApplyLife(old(Model()), FailAnalysis(a, g))
      ensures failed <==> old(AnalysisIsLive(Model(), a))
      ensures failed ==> a in owed
    {
      failed := a < |analyses| && LiveAnalysis(analyses[a]);
      if failed {
        SetAnalysis(a, Failed);
        owed := owed + {a};
      }
      if g < |sessions| && sessions[g].status.Live? {
        sessions := sessions[g := sessions[g].(status := SessionFailed)];
      }
    }

    method InsertTurn(g: nat) returns (t: nat)
      requires g < |sessions|
      modifies this
      ensures Model() == ApplyTurn(old(Model()), StartTurn(g))
      ensures t == |old(turns)| && turns[t] == Turn(g, TurnOpen)
    {
      t := |turns|;
      turns := turns + [Turn(g, TurnOpen)];
    }

    method MarkTurnDone(t: nat, g: nat)
      requires g < |sessions|
      modifies this
      ensures Model() == TurnDone(old(Model()), t, g)
    {
      sessions := sessions[g := sessions[g].(turnCount := sessions[g].turnCount + 1)];
      if t < |turns| {
        turns := turns[t := turns[t].(status := TurnCompleted)];
      }
    }

    method InsertRow(g: nat, t: nat, request: Request) returns (id: nat)
      modifies this`calls
      ensures calls == InsertCall(old(calls), g, t, request)
      ensures FindCall(calls, g, request.externalId) == Some(id)
    {
      var existing := FindCall(calls, g, request.externalId);
      if existing.Some? {
        return existing.value;
      }
      id := |calls|;
      calls := calls + [NewCall(g, t, request)];
    }

    method InsertRows(g: nat, t: nat, requests: seq<Request>) returns (ids: seq<nat>)
      modifies this`calls
      ensures calls == InsertCalls(old(calls), g, t, requests)
      ensures |ids| == |requests| && Resolved(calls, g, requests, ids)
    {
      ids := [];
      for n := 0 to |requests|
        invariant |ids| == n && Resolved(calls, g, requests, ids)
        invariant calls == InsertCalls(old(calls), g, t, requests[..n])
      {
        ghost var before := calls;
        var id := InsertRow(g, t, requests[n]);
        assert requests[..n + 1][..n] == requests[..n];
        ResolvedNext(before, g, t, requests, ids, id);
        ids := ids + [id];
      }
      assert requests[..|requests|] == requests;
    }

    method AnnounceRows(g: nat, requests: seq<Request>, ids: seq<nat>)
      requires |ids| == |requests| && Resolved(calls, g, requests, ids)
      modifies this`outbox
      ensures outbox == old(outbox) + RequestEvents(calls, g, requests)
    {
      for n := 0 to |requests|
        invariant outbox == old(outbox) + RequestEvents(calls, g, requests)[..n]
      {
        AddOutbox(if requests[n].reused.Some? then ToolEnded(ids[n]) else ToolRequested(ids[n]));
      }
    }

    /** False stands for the RuntimeError raised when the session cannot continue. */
    method CompleteTurnWithTools(t: nat, a: nat, g: nat, requests: seq<Request>) returns (ok: bool, ids: seq<nat>)
      modifies this
      ensures Model() == ApplyTurn(old(Model()), CompleteWithTools(t, a, g, requests))
      ensures ok <==> old(Continuable(Model(), a, g))
      ensures ok ==> |ids| == |requests| && Resolved(calls, g, requests, ids)
    {
      ids := [];
      ok := a < |analyses| && g < |sessions| && sessions[g].analysis == a &&
            LiveAnalysis(analyses[a]) && sessions[g].status.Live?;
      if !ok {
        return;
      }
      MarkTurnDone(t, g);
      ids := InsertRows(g, t, requests);
      AnnounceRows(g, requests, ids);
    }

    method CompleteTurnWithAnswer(t: nat, a: nat, g: nat) returns (completed: bool)
      modifies this
      ensures Model() == ApplyTurn(old(Model()), CompleteWithAnswer(t, a, g))
      ensures completed <==> old(Continuable(Model(), a, g))
    {
      completed := a < |analyses| && g < |sessions| && sessions[g].analysis == a &&
                   LiveAnalysis(analyses[a]) && sessions[g].status.Live?;
      if !completed {
        return;
      }
      MarkTurnDone(t, g);
      SetAnalysis(a, Completed);
      sessions := sessions[g := sessions[g].(status := SessionCompleted)];
      AddOutbox(AnalysisEnded(a, Completed));
    }

    /** `token` is freshly drawn. */
    method Claim(c: nat, now: int, token: Token) returns (row: Option<Call>)
      requires token !in issued
      modifies this
      ensures Model() == ApplyCall(old(Model()), ClaimCall(c, now, token))
      ensures row.Some? <==> old(c < |calls| && Claimable(calls[c], now))
      ensures row.Some? ==> c < |calls| && row.value == calls[c] && HeldBy(calls[c], token)
    {
      if c >= |calls| || !Claimable(calls[c], now) {
        return None;
      }
      calls := calls[c := calls[c].(status := CallRunning, owner := Some(token), expires := Some(now + CLAIM_TTL))];
      issued := issued + {token};
      row := Some(calls[c]);
    }

    method Renew(c: nat, now: int, token: Token) returns (renewed: bool)
      modifies this
      ensures Model() == ApplyCall(old(Model()), RenewCall(c, now, token))
      ensures renewed <==> old(c < |calls| && HeldBy(calls[c], token))
    {
      renewed := c < |calls| && HeldBy(calls[c], token);
      if renewed {
        calls := calls[c := calls[c].(expires := Some(now + CLAIM_TTL))];
      }
    }

    method Release(c: nat, token: Token) returns (released: bool)
      modifies this
      ensures Model() == ApplyCall(old(Model()), ReleaseCall(c, token))
      ensures released <==> old(c < |calls| && HeldBy(calls[c], token))
    {
      released := c < |calls| && HeldBy(calls[c], token);
      if released {
        calls := calls[c := calls[c].(status := CallQueued, owner := None, expires := None)];
      }
    }

    method Finalize(c: nat, holder: Option<Token>, answer: Answer, result: string) returns (updated: bool)
      modifies this
      ensures Model() == ApplyCall(old(Model()), FinalizeCall(c, holder, answer, result))
      ensures updated <==> old(c < |calls| && Finalizable(calls[c], holder))
    {
      updated := c < |calls| && Finalizable(calls[c], holder);
      if updated {
        calls := calls[c := EndedCall(calls[c], StatusOf(answer), result)];
        AddOutbox(ToolEnded(c));
      }
    }
  }
}
