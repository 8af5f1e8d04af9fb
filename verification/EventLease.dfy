/** The claims and processed-events tables that event consumers share.  A claim is a lease: it carries
    an owner token drawn for it alone and an expiry on the shared clock. */
module EventLease {
  import opened Wrappers

  type Token = nat

  datatype Key = Key(event: nat, consumer: string)

  datatype Claim = Claim(owner: Token, expires: int)

  /** `processed` lists the rows of processed_events in insertion order; `issued` the tokens drawn so far. */
  datatype Store = Store(claims: map<Key, Claim>, processed: seq<Key>, issued: set<Token>)

  const TTL: int := 900

  /** One committed transaction at clock reading `now`.  A holder of None is a caller without a token. */
  datatype Step =
    | ClaimKey(k: Key, now: int, token: Token)
    | RenewKey(k: Key, now: int, token: Token)
    | MarkKey(k: Key, now: int, holder: Option<Token>)
    | ReleaseKey(k: Key, now: int, holder: Option<Token>)

  function Empty(): Store {
    Store(map[], [], {})
  }

  predicate Holds(s: Store, k: Key, token: Token) {
    k in s.claims && s.claims[k].owner == token
  }

  predicate Free(s: Store, k: Key, now: int) {
    k !in s.claims || s.claims[k].expires < now
  }

  predicate Deletes(s: Store, k: Key, holder: Option<Token>) {
    k in s.claims && (holder.None? || s.claims[k].owner == holder.value)
  }

  function Released(s: Store, k: Key, holder: Option<Token>): Store {
    if Deletes(s, k, holder) then s.(claims := s.claims - {k}) else s
  }

  /** The row goes in only if it is absent and, for a caller with a token, the token is current. */
  predicate Inserts(s: Store, k: Key, holder: Option<Token>) {
    k !in s.processed && (holder.None? || Holds(s, k, holder.value))
  }

  /** What `mark_processed` returns; with a token, a row inserted earlier by anybody also counts. */
  predicate Marks(s: Store, k: Key, holder: Option<Token>) {
    Inserts(s, k, holder) || (holder.Some? && k in s.processed)
  }

  function Apply(s: Store, step: Step): Store {
    match step
    case ClaimKey(k, now, token) =>
      if token !in s.issued && Free(s, k, now)
      then s.(claims := s.claims[k := Claim(token, now + TTL)], issued := s.issued + {token}) else s
    case RenewKey(k, now, token) =>
      if Holds(s, k, token) then s.(claims := s.claims[k := Claim(token, now + TTL)]) else s
    case MarkKey(k, now, holder) =>
      if Marks(s, k, holder)
      then Released(if Inserts(s, k, holder) then s.(processed := s.processed + [k]) else s, k, holder)
      else s
    case ReleaseKey(k, now, holder) => Released(s, k, holder)
  }

  function Run(s: Store, steps: seq<Step>): Store {
    if steps == [] then s else Apply(Run(s, steps[..|steps| - 1]), steps[|steps| - 1])
  }

  // --- Processed rows ---

  predicate NoRepeats(rows: seq<Key>) {
    forall i, j :: 0 <= i < j < |rows| ==> rows[i] != rows[j]
  }

  /** A row is inserted at most once per (event, consumer) and never removed. */
  lemma {:induction false} ProcessedOnceForGood(s: Store, steps: seq<Step>)
    requires NoRepeats(s.processed)
    ensures NoRepeats(Run(s, steps).processed) && s.processed <= Run(s, steps).processed
  {
    if steps != [] {
      ProcessedOnceForGood(s, steps[..|steps| - 1]);
    }
  }

  // --- Tokens ---

  predicate TokensFit(s: Store) {
    (forall k :: k in s.claims ==> s.claims[k].owner in s.issued) &&
    (forall k, l :: k in s.claims && l in s.claims && k != l ==> s.claims[k].owner != s.claims[l].owner)
  }

  lemma StepKeepsTokens(s: Store, step: Step)
    requires TokensFit(s)
    ensures TokensFit(Apply(s, step))
  {
  }

  /** A token that was drawn and is no longer current for `k` never becomes current again. */
  lemma {:induction false} LostForGood(s: Store, steps: seq<Step>, k: Key, token: Token)
    requires TokensFit(s) && token in s.issued && !Holds(s, k, token)
    ensures TokensFit(Run(s, steps)) && token in Run(s, steps).issued && !Holds(Run(s, steps), k, token)
  {
    if steps != [] {
      var n := |steps| - 1;
      LostForGood(s, steps[..n], k, token);
      StepKeepsTokens(Run(s, steps[..n]), steps[n]);
    }
  }

  /** Whatever a stale holder calls, however late: nothing changes, and a mark only succeeds if the
      row is already there. */
  lemma StaleHolderIsHarmless(s: Store, steps: seq<Step>, k: Key, token: Token, now: int)
    requires TokensFit(s) && token in s.issued && !Holds(s, k, token)
    ensures var later := Run(s, steps);
            Apply(later, RenewKey(k, now, token)) == later &&
            Apply(later, ReleaseKey(k, now, Some(token))) == later &&
            Apply(later, MarkKey(k, now, Some(token))) == later &&
            (Marks(later, k, Some(token)) <==> k in later.processed)
  {
    LostForGood(s, steps, k, token);
  }

  /** A release gives back the caller's own claim and nothing else: afterwards the caller holds nothing
      under `k`, every other holding stands, and the next claimer need not wait if the caller held it. */
  lemma ReleaseGivesBackOwn(s: Store, k: Key, now: int, token: Token, l: Key, other: Token)
    requires TokensFit(s)
    ensures var after := Apply(s, ReleaseKey(k, now, Some(token)));
            !Holds(after, k, token) && after.processed == s.processed &&
            (Holds(after, l, other) <==> Holds(s, l, other) && !(l == k && other == token)) &&
            (Holds(s, k, token) ==> forall later: int :: Free(after, k, later)) &&
            (!Holds(s, k, token) ==> after == s)
  {
  }

  /** Release undoes claim: taking a free key and giving it back leaves the other claims as they were. */
  lemma ReleaseUndoesClaim(s: Store, k: Key, now: int, token: Token, later: int)
    requires token !in s.issued && Free(s, k, now)
    ensures var after := Apply(Apply(s, ClaimKey(k, now, token)), ReleaseKey(k, later, Some(token)));
            after.claims == s.claims - {k} && after.processed == s.processed && k !in after.claims
  {
    var claimed := Apply(s, ClaimKey(k, now, token));
    assert claimed.claims - {k} == s.claims - {k};
  }

  /** A mark says what it did.  With a token it is accepted if the token is current or the row is there
      already, without one if the row is not there; then the row is there, and of the claims only the
      caller's is gone.  A refused mark changes nothing. */
  lemma MarkSaysWhatItDid(s: Store, k: Key, now: int, holder: Option<Token>)
    ensures Marks(s, k, holder) <==>
            if holder.None? then k !in s.processed else k in s.processed || Holds(s, k, holder.value)
    ensures var after := Apply(s, MarkKey(k, now, holder));
            (Marks(s, k, holder) ==>
              k in after.processed && !Deletes(after, k, holder) &&
              forall l :: l in s.claims && !(l == k && Deletes(s, k, holder)) ==>
                l in after.claims && after.claims[l] == s.claims[l]) &&
            (!Marks(s, k, holder) ==> after == s)
  {
    var after := Apply(s, MarkKey(k, now, holder));
    if Marks(s, k, holder) && Inserts(s, k, holder) {
      assert after.processed[|s.processed|] == k;
    }
  }

  // --- The lease ---

  /** The step was made with `token`, or without any token. */
  predicate EndsLease(step: Step, k: Key, token: Token) {
    (step.MarkKey? || step.ReleaseKey?) && step.k == k && (step.holder.None? || step.holder == Some(token))
  }

  /** The clock reading of the holder's latest claim or renewal. */
  function LastBeat(steps: seq<Step>, k: Key, token: Token, start: int): int {
    if steps == [] then start
    else if IsBeat(steps[|steps| - 1], k, token) then steps[|steps| - 1].now
    else LastBeat(steps[..|steps| - 1], k, token, start)
  }

  /** No step comes more than the TTL after the holder's latest beat. */
  predicate BeatsInTime(steps: seq<Step>, k: Key, token: Token, start: int) {
    forall i :: 0 <= i < |steps| ==> steps[i].now <= LastBeat(steps[..i], k, token, start) + TTL
  }

  predicate IsBeat(step: Step, k: Key, token: Token) {
    step.RenewKey? && step.k == k && step.token == token
  }

  lemma StepKeepsLease(s: Store, step: Step, k: Key, token: Token, beat: int)
    requires TokensFit(s) && k in s.claims && s.claims[k] == Claim(token, beat + TTL)
    requires step.now <= beat + TTL && !EndsLease(step, k, token)
    ensures k in Apply(s, step).claims
    ensures Apply(s, step).claims[k] == Claim(token, TTL + if IsBeat(step, k, token) then step.now else beat)
    ensures step.ClaimKey? && step.k == k ==> Apply(s, step) == s
  {
  }

  /** While the holder's beats are never more than the TTL apart it keeps the claim, whatever other
      consumers and stale holders do. */
  lemma {:induction false} HolderKeepsLease(s: Store, steps: seq<Step>, k: Key, token: Token, start: int)
    requires TokensFit(s) && k in s.claims && s.claims[k] == Claim(token, start + TTL)
    requires BeatsInTime(steps, k, token, start)
    requires forall i :: 0 <= i < |steps| ==> !EndsLease(steps[i], k, token)
    ensures TokensFit(Run(s, steps)) && k in Run(s, steps).claims
    ensures Run(s, steps).claims[k] == Claim(token, LastBeat(steps, k, token, start) + TTL)
  {
    if steps != [] {
      var n := |steps| - 1;
      assert forall i :: 0 <= i < n ==> steps[..n][..i] == steps[..i];
      HolderKeepsLease(s, steps[..n], k, token, start);
      StepKeepsTokens(Run(s, steps[..n]), steps[n]);
      StepKeepsLease(Run(s, steps[..n]), steps[n], k, token, LastBeat(steps[..n], k, token, start));
    }
  }

  /** Hence nobody else obtains the claim: every attempt made in that time changes nothing. */
  lemma NobodyElseClaims(s: Store, steps: seq<Step>, k: Key, token: Token, start: int, i: nat)
    requires TokensFit(s) && k in s.claims && s.claims[k] == Claim(token, start + TTL)
    requires BeatsInTime(steps, k, token, start)
    requires forall j :: 0 <= j < |steps| ==> !EndsLease(steps[j], k, token)
    requires i < |steps| && steps[i].ClaimKey? && steps[i].k == k
    ensures Run(s, steps[..i + 1]) == Run(s, steps[..i])
  {
    assert forall j :: 0 <= j < i ==> steps[..i][..j] == steps[..j];
    HolderKeepsLease(s, steps[..i], k, token, start);
    StepKeepsLease(Run(s, steps[..i]), steps[i], k, token, LastBeat(steps[..i], k, token, start));
    assert steps[..i + 1][..i] == steps[..i];
  }

  /** And the lease is no longer than that: once the clock passes the TTL after the last beat, a
      claim succeeds and the old holder is locked out for good. */
  lemma LapsedLeaseIsTaken(s: Store, k: Key, token: Token, now: int, next: Token, steps: seq<Step>)
    requires TokensFit(s) && Holds(s, k, token) && next !in s.issued
    ensures Holds(Apply(s, ClaimKey(k, now, next)), k, next) <==> s.claims[k].expires < now
    ensures s.claims[k].expires < now ==> !Holds(Run(Apply(s, ClaimKey(k, now, next)), steps), k, token)
  {
    if s.claims[k].expires < now {
      StepKeepsTokens(s, ClaimKey(k, now, next));
      LostForGood(Apply(s, ClaimKey(k, now, next)), steps, k, token);
    }
  }

  // --- The repository, statement by statement ---

  class ProcessedEvents {
    var claims: map<Key, Claim>
    var processed: seq<Key>
    ghost var issued: set<Token>

    ghost function Model(): Store
      reads this
    {
      Store(claims, processed, issued)
    }

    constructor ()
      ensures Model() == Empty()
    {
      claims, processed, issued := map[], [], {};
    }

    /** INSERT … ON CONFLICT DO NOTHING RETURNING. */
    method Insert(k: Key) returns (inserted: bool)
      modifies this`processed
      ensures inserted <==> k !in old(processed)
      ensures processed == if inserted then old(processed) + [k] else old(processed)
    {
      inserted := k !in processed;
      if inserted {
        processed := processed + [k];
      }
    }

    method Delete(k: Key, holder: Option<Token>)
      modifies this`claims
      ensures Model() == Released(old(Model()), k, holder)
    {
      if k in claims && (holder.None? || claims[k].owner == holder.value) {
        claims := claims - {k};
      }
    }

    method MarkProcessed(k: Key, now: int, holder: Option<Token>) returns (marked: bool)
      modifies this
      ensures Model() == Apply(old(Model()), MarkKey(k, now, holder))
      ensures marked <==> Marks(old(Model()), k, holder)
      ensures marked ==> k in processed
    {
      var inserted := false;
      if holder.None? || (k in claims && claims[k].owner == holder.value) {
        inserted := Insert(k);
      }
      if !inserted && (holder.None? || k !in processed) {
        return false;
      }
      Delete(k, holder);
      marked := true;
    }

    /** The upsert of `claim_processing`; `token` is freshly drawn. */
    method ClaimProcessing(k: Key, now: int, token: Token) returns (claimed: bool)
      requires token !in issued
      modifies this
      ensures Model() == Apply(old(Model()), ClaimKey(k, now, token))
      ensures claimed <==> Free(old(Model()), k, now)
    {
      claimed := k !in claims || claims[k].expires < now;
      if claimed {
        claims := claims[k := Claim(token, now + TTL)];
        issued := issued + {token};
      }
    }

    method RenewClaim(k: Key, now: int, token: Token) returns (renewed: bool)
      modifies this
      ensures Model() == Apply(old(Model()), RenewKey(k, now, token))
      ensures renewed <==> Holds(old(Model()), k, token)
    {
      renewed := k in claims && claims[k].owner == token;
      if renewed {
        claims := claims[k := claims[k].(expires := now + TTL)];
      }
    }
  }
}
