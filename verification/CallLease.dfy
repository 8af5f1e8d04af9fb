/** The lease on a tool call: the holder keeps it while it beats in time, nobody else gets it meanwhile,
    and a worker that died is replaced as soon as its lease has run out. */
module CallLease {
  import opened Wrappers
  import opened Platform
  import opened Endings
  import opened Fencing

  /** The row is running for `token`, and its lease ends the TTL after `beat`. */
  predicate Leased(db: Db, c: nat, token: Token, beat: int) {
    c < |db.calls| && token in db.issued && db.calls[c].status.CallRunning? &&
    db.calls[c].owner == Some(token) && db.calls[c].expires == Some(beat + CLAIM_TTL)
  }

  predicate IsBeat(step: Step, c: nat, token: Token) {
    step.Calling? && step.call.RenewCall? && step.call.c == c && step.call.token == token
  }

  predicate IsClaim(step: Step, c: nat) {
    step.Calling? && step.call.ClaimCall? && step.call.c == c
  }

  /** The holder gives the call up or finishes it, a caller without a token finishes it, or the analysis
      of agent `g` is cancelled. */
  predicate EndsLease(step: Step, c: nat, token: Token, g: nat) {
    match step
    case Calling(ReleaseCall(d, other)) => d == c && other == token
    case Calling(FinalizeCall(d, holder, _, _)) => d == c && (holder.None? || holder == Some(token))
    case Calling(CancelClaimed(d, other, _)) => d == c && other == token
    case Life(HandleCancelRequested(_, agent)) => agent == Some(g)
    case Life(ApiCancel(a)) => a == g
    case _ => false
  }

  /** The clock reading of the holder's latest claim or renewal. */
  function LastBeat(steps: seq<Step>, c: nat, token: Token, start: int): int {
    if steps == [] then start
    else if IsBeat(steps[|steps| - 1], c, token) then steps[|steps| - 1].call.now
    else LastBeat(steps[..|steps| - 1], c, token, start)
  }

  /** No claim of the call comes more than the TTL after the holder's latest beat. */
  predicate BeatsInTime(steps: seq<Step>, c: nat, token: Token, start: int) {
    forall i :: 0 <= i < |steps| && IsClaim(steps[i], c) ==>
      steps[i].call.now <= LastBeat(steps[..i], c, token, start) + CLAIM_TTL
  }

  predicate NoneEnds(steps: seq<Step>, c: nat, token: Token, g: nat) {
    forall i :: 0 <= i < |steps| ==> !EndsLease(steps[i], c, token, g)
  }

  lemma PrefixInTime(steps: seq<Step>, n: nat, c: nat, token: Token, start: int, g: nat)
    requires n <= |steps| && BeatsInTime(steps, c, token, start) && NoneEnds(steps, c, token, g)
    ensures BeatsInTime(steps[..n], c, token, start) && NoneEnds(steps[..n], c, token, g)
  {
    forall i | 0 <= i < n && IsClaim(steps[..n][i], c)
      ensures steps[..n][i].call.now <= LastBeat(steps[..n][..i], c, token, start) + CLAIM_TTL
    {
      assert steps[..n][..i] == steps[..i] && steps[..n][i] == steps[i];
    }
  }

  lemma CallStepKeepsLease(db: Db, s: CallStep, c: nat, token: Token, beat: int)
    requires Leased(db, c, token, beat) && !EndsLease(Calling(s), c, token, db.calls[c].agent)
    requires IsClaim(Calling(s), c) ==> s.now <= beat + CLAIM_TTL
    ensures Leased(ApplyCall(db, s), c, token, if IsBeat(Calling(s), c, token) then s.now else beat)
    ensures ApplyCall(db, s).calls[c].agent == db.calls[c].agent
    ensures IsClaim(Calling(s), c) ==> ApplyCall(db, s) == db
  {
  }

  lemma LifeStepKeepsLease(db: Db, s: LifeStep, c: nat, token: Token, beat: int)
    requires Leased(db, c, token, beat) && !EndsLease(Life(s), c, token, db.calls[c].agent)
    ensures Leased(ApplyLife(db, s), c, token, beat) && ApplyLife(db, s).calls[c].agent == db.calls[c].agent
  {
  }

  lemma StepKeepsLease(db: Db, step: Step, c: nat, token: Token, beat: int)
    requires Leased(db, c, token, beat) && !EndsLease(step, c, token, db.calls[c].agent)
    requires IsClaim(step, c) ==> step.call.now <= beat + CLAIM_TTL
    ensures Leased(Apply(db, step), c, token, if IsBeat(step, c, token) then step.call.now else beat)
    ensures Apply(db, step).calls[c].agent == db.calls[c].agent
    ensures IsClaim(step, c) ==> Apply(db, step) == db
  {
    match step
    case Life(s) => LifeStepKeepsLease(db, s, c, token, beat);
    case Turning(s) => TurnFrame(db, s);
    case Calling(s) => CallStepKeepsLease(db, s, c, token, beat);
  }

  /** While the holder's claim and renewals are never more than the TTL apart, and it neither ends the
      call nor is cancelled, the row keeps its owner and runs the TTL after the last beat, whatever
      transactions run meanwhile. */
  lemma {:induction false} HolderKeepsCall(db: Db, steps: seq<Step>, c: nat, token: Token, start: int)
    requires Leased(db, c, token, start) && BeatsInTime(steps, c, token, start)
    requires NoneEnds(steps, c, token, db.calls[c].agent)
    ensures Leased(Run(db, steps), c, token, LastBeat(steps, c, token, start))
    ensures Run(db, steps).calls[c].agent == db.calls[c].agent
  {
    if steps != [] {
      var n := |steps| - 1;
      PrefixInTime(steps, n, c, token, start, db.calls[c].agent);
      HolderKeepsCall(db, steps[..n], c, token, start);
      StepKeepsLease(Run(db, steps[..n]), steps[n], c, token, LastBeat(steps[..n], c, token, start));
    }
  }

  /** Hence every claim of the call made in that time changes nothing. */
  lemma NobodyElseClaimsCall(db: Db, steps: seq<Step>, c: nat, token: Token, start: int, i: nat)
    requires Leased(db, c, token, start) && BeatsInTime(steps, c, token, start)
    requires NoneEnds(steps, c, token, db.calls[c].agent)
    requires i < |steps| && IsClaim(steps[i], c)
    ensures Run(db, steps[..i + 1]) == Run(db, steps[..i])
  {
    PrefixInTime(steps, i, c, token, start, db.calls[c].agent);
    HolderKeepsCall(db, steps[..i], c, token, start);
    StepKeepsLease(Run(db, steps[..i]), steps[i], c, token, LastBeat(steps[..i], c, token, start));
    assert steps[..i + 1][..i] == steps[..i];
  }

  /** And no longer: once the clock is past the TTL after the last beat a fresh claim gets the call, and
      the old holder is powerless for good. */
  lemma LapsedCallIsTaken(db: Db, c: nat, token: Token, beat: int, now: int, next: Token, more: seq<Step>)
    requires OwnersFit(db) && Leased(db, c, token, beat) && next !in db.issued
    ensures var after := Apply(db, Calling(ClaimCall(c, now, next)));
            (Leased(after, c, next, now) <==> now > beat + CLAIM_TTL) &&
            (now > beat + CLAIM_TTL ==> Powerless(Run(after, more), c, token))
  {
    if now > beat + CLAIM_TTL {
      TakenOverWorkerIsFenced(db, c, token, now, next, more);
    }
  }

  /** The lease of a dead worker is fifteen minutes: refused to the end of them, given right after. */
  lemma LeaseLastsFifteenMinutes(db: Db, c: nat, claimed: int, token: Token, next: Token)
    requires c < |db.calls| && db.calls[c].status.CallQueued? && token !in db.issued && next !in db.issued
    requires token != next
    ensures var held := Apply(db, Calling(ClaimCall(c, claimed, token)));
            Leased(held, c, token, claimed) &&
            Apply(held, Calling(ClaimCall(c, claimed + 15 * 60, next))) == held &&
            Leased(Apply(held, Calling(ClaimCall(c, claimed + 15 * 60 + 1, next))), c, next, claimed + 15 * 60 + 1)
  {
  }

  /** A queued or released call is there for the first one who asks, at any time, and a claim touches no
      other column and no other call. */
  lemma OpenCallIsTaken(db: Db, c: nat, token: Token, now: int, next: Token, later: int)
    requires OwnersFit(db) && c < |db.calls| && next !in db.issued
    requires db.calls[c].status.CallQueued? || HeldBy(db.calls[c], token)
    ensures var free := Apply(db, Calling(ReleaseCall(c, token)));
            var after := Apply(free, Calling(ClaimCall(c, later, next)));
            Leased(after, c, next, later) &&
            after.calls == db.calls[c := db.calls[c].(status := CallRunning, owner := Some(next),
                                                      expires := Some(later + CLAIM_TTL))]
  {
    assert OwnerFits(db.calls[c], db.issued);
  }

  /** A call that has ended is never claimed. */
  lemma EndedCallIsNotTaken(db: Db, c: nat, now: int, token: Token)
    requires EndedCallAt(db, c)
    ensures Apply(db, Calling(ClaimCall(c, now, token))) == db
  {
  }

  /** A row has an expiry exactly while it is running. */
  predicate ExpiriesFit(db: Db) {
    forall c :: 0 <= c < |db.calls| ==> (db.calls[c].expires.Some? <==> db.calls[c].status.CallRunning?)
  }

  lemma CallKeepsExpiries(db: Db, s: CallStep)
    requires ExpiriesFit(db)
    ensures ExpiriesFit(ApplyCall(db, s))
  {
  }

  lemma LifeKeepsExpiries(db: Db, s: LifeStep)
    requires ExpiriesFit(db)
    ensures ExpiriesFit(ApplyLife(db, s))
  {
  }

  lemma TurnKeepsExpiries(db: Db, s: TurnStep)
    requires ExpiriesFit(db)
    ensures ExpiriesFit(ApplyTurn(db, s))
  {
    TurnFrame(db, s);
    if s.CompleteWithTools? {
      InsertedCallsBelong(db.calls, s.g, s.t, s.requests);
    }
  }

  lemma {:induction false} RunKeepsExpiries(steps: seq<Step>)
    ensures ExpiriesFit(Run(Initial(), steps))
  {
    if steps != [] {
      var n := |steps| - 1;
      RunKeepsExpiries(steps[..n]);
      match steps[n]
      case Life(s) => LifeKeepsExpiries(Run(Initial(), steps[..n]), s);
      case Turning(s) => TurnKeepsExpiries(Run(Initial(), steps[..n]), s);
      case Calling(s) => CallKeepsExpiries(Run(Initial(), steps[..n]), s);
    }
  }

  /** The holder of a call whose analysis is cancelling or cancelled by now ends it as cancelled, with its
      event; while the analysis is not, the worker's cancel does nothing. */
  lemma HolderCancelsIff(db: Db, c: nat, token: Token, result: string)
    requires c < |db.calls| && HeldBy(db.calls[c], token) && db.calls[c].agent < |db.analyses|
    ensures var after := Apply(db, Calling(CancelClaimed(c, token, result)));
            var status := db.analyses[db.calls[c].agent];
            if status == Cancelling || status == Cancelled
            then after.calls == db.calls[c := db.calls[c].(status := CallCancelled, owner := None, expires := None,
                                                           result := Some(result))] &&
                 after.outbox == db.outbox + [ToolEnded(c)]
            else after == db
  {
  }
}
