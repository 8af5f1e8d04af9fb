/** The consume loop of one group member, in the order the code runs it, with anything the other
    members, producers and users of the claim store do happening between any two of its steps.  Every
    step is a move of the `Delivery` machine, so the loop's history is one of its runs. */
module ConsumerLoop {
  import opened Wrappers
  import opened Delivery
  import EventLease

  /** `ClaimLost` is the RuntimeError raised when the claim was lost before mark_processed. */
  datatype Result = Handled | SkippedProcessed | DeferredMessage | FailedRequeued | ClaimLost

  /** What the surroundings contribute to one message: the partition it comes from, the clock, the
      token drawn, whether the handler raises, the partition a retry is routed to, and what others do
      between two steps. */
  datatype Chance = Chance(from: nat, now: int, token: nat, raises: bool, to: nat, noise: seq<Move>)

  /** A move that is not this member's and draws none of its tokens. */
  predicate Foreign(move: Move, m: nat, secret: set<nat>) {
    match move
    case Produce(_, _) => true
    case Join => true
    case StoreStep(step) => step.ClaimKey? ==> step.token !in secret
    case TakeClaim(k, _, token) => k != m && token !in secret
    case _ => move.m != m
  }

  predicate AllForeign(noise: seq<Move>, m: nat, secret: set<nat>) {
    forall i :: 0 <= i < |noise| ==> Foreign(noise[i], m, secret)
  }

  lemma RunExtended(cfg: Config, start: World, moves: seq<Move>, move: Move)
    ensures Run(cfg, start, moves + [move]) == Act(cfg, Run(cfg, start, moves), move)
  {
    assert (moves + [move])[..|moves|] == moves;
  }

  /** Others touch neither the member nor its tokens, and records only grow. */
  predicate Undisturbed(w: World, after: World, m: nat, secret: set<nat>) {
    m < |w.members| <= |after.members| && after.members[m] == w.members[m] && Extends(w, after) &&
    DrawsNone(w, after, secret)
  }

  /** None of these tokens was drawn on the way. */
  predicate DrawsNone(w: World, after: World, tokens: set<nat>) {
    forall token :: token in tokens && token in after.store.issued ==> token in w.store.issued
  }

  /** The same message is in hand, and records only grew. */
  predicate SameMessage(w: World, after: World, m: nat) {
    InFlight(w, m) && InFlight(after, m) && Current(after, m) == Current(w, m) && Extends(w, after) &&
    after.members[m].positions == w.members[m].positions &&
    after.members[m].flight.value.p == w.members[m].flight.value.p &&
    after.members[m].flight.value.off == w.members[m].flight.value.off
  }

  lemma ForeignKeeps(cfg: Config, w: World, move: Move, m: nat, secret: set<nat>)
    requires m < |w.members| && Foreign(move, m, secret)
    ensures Undisturbed(w, Act(cfg, w, move), m, secret)
  {
    ActExtends(cfg, w, move);
  }

  /** The message in hand stays the same when logs only grow. */
  lemma CurrentStays(w: World, after: World, m: nat, secret: set<nat>)
    requires InFlight(w, m) && Undisturbed(w, after, m, secret)
    ensures InFlight(after, m) && Current(after, m) == Current(w, m) && StageOf(after, m) == StageOf(w, m)
  {
  }

  /** What one failed message leaves behind: its next attempt, or itself in the dead-letter topic. */
  ghost predicate FailureOnRecord(cfg: Config, w: World, msg: Message) {
    if cfg.retries && msg.attempt < cfg.maxAttempts
    then Logged(w.logs, Message(msg.event, msg.attempt + 1)) else msg in w.dead
  }

  lemma FailureStays(cfg: Config, w: World, after: World, msg: Message)
    requires FailureOnRecord(cfg, w, msg) && Extends(w, after)
    ensures FailureOnRecord(cfg, after, msg)
  {
    if cfg.retries && msg.attempt < cfg.maxAttempts {
      var p: nat, off: nat :| InLog(w.logs, p, off) && w.logs[p][off] == msg.(attempt := msg.attempt + 1);
      assert InLog(after.logs, p, off) && after.logs[p][off] == w.logs[p][off];
    }
  }

  /** What becomes of a message before its handler is called, when nobody interferes: a processed event is
      skipped, one under an unexpired claim deferred. */
  function Undisputed(store: EventLease.Store, k: EventLease.Key, now: int): Option<Result> {
    if k in store.processed then Some(SkippedProcessed)
    else if k in store.claims && store.claims[k].expires >= now then Some(DeferredMessage)
    else None
  }

  /** The outcome ends the loop. */
  predicate Stops(result: Option<Result>, continueOnDeferred: bool) {
    result == Some(ClaimLost) || (result == Some(DeferredMessage) && !continueOnDeferred)
  }

  function CountHandled(outcomes: seq<Option<Result>>): nat {
    if outcomes == [] then 0
    else
      CountHandled(outcomes[..|outcomes| - 1]) + if outcomes[|outcomes| - 1] == Some(Handled) then 1 else 0
  }

  /** The loop ends with the `n`-th outcome: it stops the loop, or a commit finds the limit reached. */
  predicate EndsLoop(outcomes: seq<Option<Result>>, n: nat, maxMessages: Option<nat>, continueOnDeferred: bool)
    requires n <= |outcomes|
  {
    n > 0 &&
    (Stops(outcomes[n - 1], continueOnDeferred) ||
     (outcomes[n - 1].Some? && !outcomes[n - 1].value.DeferredMessage? &&
      maxMessages.Some? && CountHandled(outcomes[..n]) >= maxMessages.value))
  }

  /** None of the outcomes before the `end`-th ends the loop. */
  predicate GoesOn(outcomes: seq<Option<Result>>, end: nat, maxMessages: Option<nat>, continueOnDeferred: bool)
    requires end <= |outcomes| + 1
  {
    forall n :: 0 <= n < end ==> !EndsLoop(outcomes, n, maxMessages, continueOnDeferred)
  }

  lemma PrefixesStay(outcomes: seq<Option<Result>>, result: Option<Result>, maxMessages: Option<nat>,
                     continueOnDeferred: bool)
    ensures CountHandled(outcomes + [result]) == CountHandled(outcomes) + if result == Some(Handled) then 1 else 0
    ensures forall n :: 0 <= n <= |outcomes| ==>
              (EndsLoop(outcomes + [result], n, maxMessages, continueOnDeferred) <==>
               EndsLoop(outcomes, n, maxMessages, continueOnDeferred))
    ensures EndsLoop(outcomes + [result], |outcomes| + 1, maxMessages, continueOnDeferred) <==>
            Stops(result, continueOnDeferred) ||
            (result.Some? && !result.value.DeferredMessage? && maxMessages.Some? &&
             CountHandled(outcomes) + (if result == Some(Handled) then 1 else 0) >= maxMessages.value)
  {
    assert (outcomes + [result])[..|outcomes| + 1] == outcomes + [result];
    assert (outcomes + [result])[..|outcomes|] == outcomes;
    assert forall n :: 0 <= n <= |outcomes| ==> (outcomes + [result])[..n] == outcomes[..n];
  }

  /** Partition `p` has a message at the member's position. */
  predicate HasNext(w: World, m: nat, p: nat)
    requires m < |w.members|
  {
    p in w.members[m].positions && InLog(w.logs, p, w.members[m].positions[p])
  }

  /** The message at offset `off` of partition `p` is in hand, and the position is behind it. */
  predicate Holding(w: World, m: nat, p: nat, off: nat) {
    InFlight(w, m) && w.members[m].flight.value.p == p && w.members[m].flight.value.off == off &&
    p in w.members[m].positions && w.members[m].positions[p] == off + 1
  }

  /** A deferred message is the next one to fetch again; any other is committed. */
  predicate LeftBehind(w: World, m: nat, p: nat, off: nat, deferred: bool, seeks: bool) {
    m < |w.members| && p in w.members[m].positions &&
    w.members[m].positions[p] == (if deferred && seeks then off else off + 1) &&
    (!deferred && p < |w.committed| ==> w.committed[p] == off + 1)
  }

  class Runner {
    const cfg: Config
    const m: nat
    const partitions: nat
    const secret: set<nat>
    var w: World
    ghost var trace: seq<Move>

    ghost predicate Valid()
      reads this
    {
      w == Run(cfg, Initial(partitions), trace)
    }

    constructor (cfg: Config, partitions: nat, m: nat, secret: set<nat>)
      ensures Valid() && this.cfg == cfg && this.partitions == partitions && this.m == m && this.secret == secret
      ensures w == Initial(partitions)
    {
      this.cfg, this.partitions, this.m, this.secret := cfg, partitions, m, secret;
      w, trace := Initial(partitions), [];
    }

    /** One move, of this member or of its surroundings. */
    method Do(move: Move)
      requires Valid()
      modifies this
      ensures Valid() && w == Act(cfg, old(w), move)
    {
      RunExtended(cfg, Initial(partitions), trace, move);
      w, trace := Act(cfg, w, move), trace + [move];
    }

    method Disturb(noise: seq<Move>)
      requires Valid() && m < |w.members| && AllForeign(noise, m, secret)
      modifies this
      ensures Valid() && Undisturbed(old(w), w, m, secret) && (noise == [] ==> w == old(w))
    {
      for n := 0 to |noise|
        invariant Valid() && Undisturbed(old(w), w, m, secret) && (n == 0 ==> w == old(w))
      {
        ForeignKeeps(cfg, w, noise[n], m, secret);
        Do(noise[n]);
      }
    }

    /** The surroundings act while a message is in hand. */
    method Wait(noise: seq<Move>)
      requires Valid() && InFlight(w, m) && AllForeign(noise, m, secret)
      modifies this
      ensures Valid() && SameMessage(old(w), w, m) && StageOf(w, m) == StageOf(old(w), m)
      ensures DrawsNone(old(w), w, secret) && (noise == [] ==> w == old(w))
    {
      Disturb(noise);
      CurrentStays(old(w), w, m, secret);
    }

    /** A step of this member that keeps the message in hand. */
    method StepTo(noise: seq<Move>, move: Move) returns (ghost between: World)
      requires Valid() && InFlight(w, m) && AllForeign(noise, m, secret)
      requires move.Check? || move.Recheck? || move.TakeClaim? || move.Raise? || move.Release?
      requires move.m == m && (move.TakeClaim? ==> move.token !in w.store.issued && move.token in secret)
      modifies this
      ensures Valid() && SameMessage(old(w), w, m) && SameMessage(old(w), between, m) && w == Act(cfg, between, move)
      ensures StageOf(between, m) == StageOf(old(w), m) && (noise == [] ==> between == old(w))
      ensures move.TakeClaim? ==> move.token !in between.store.issued
      ensures DrawsNone(old(w), w, secret - if move.TakeClaim? then {move.token} else {})
    {
      Wait(noise);
      between := w;
      ActExtends(cfg, w, move);
      Do(move);
    }

    /** `is_processed` and the look that `claim_processing` takes first. */
    method LookTwice(c: Chance) returns (early: Option<Result>)
      requires Valid() && StageOf(w, m) == Some(Fetched) && AllForeign(c.noise, m, secret)
      modifies this
      ensures Valid() && SameMessage(old(w), w, m) && DrawsNone(old(w), w, secret)
      ensures match early
              case None => StageOf(w, m) == Some(Claiming)
              case Some(SkippedProcessed) =>
                StageOf(w, m) == Some(Settled) && KeyOf(cfg, Current(w, m)) in w.store.processed
              case Some(DeferredMessage) => StageOf(w, m) == Some(Deferred)
              case _ => false
      ensures early.None? ==> KeyOf(cfg, Current(w, m)) !in w.store.processed
      ensures early == Some(DeferredMessage) ==> KeyOf(cfg, Current(w, m)) in w.store.processed
      ensures c.noise == [] ==>
                w.store == old(w.store) &&
                early == if KeyOf(cfg, Current(w, m)) in w.store.processed then Some(SkippedProcessed) else None
    {
      ghost var between := StepTo(c.noise, Check(m));
      if StageOf(w, m) == Some(Settled) {
        return Some(SkippedProcessed);
      }
      between := StepTo(c.noise, Recheck(m));
      early := if StageOf(w, m) == Some(Deferred) then Some(DeferredMessage) else None;
    }

    /** The upsert of `claim_processing`. */
    method Take(c: Chance) returns (taken: bool)
      requires Valid() && StageOf(w, m) == Some(Claiming) && AllForeign(c.noise, m, secret)
      requires c.token in secret && c.token !in w.store.issued
      modifies this
      ensures Valid() && SameMessage(old(w), w, m) && DrawsNone(old(w), w, secret - {c.token})
      ensures StageOf(w, m) == Some(if taken then Handling(c.token) else Deferred)
      ensures c.noise == [] ==>
                var k := KeyOf(cfg, Current(w, m));
                w.store.processed == old(w.store.processed) &&
                (taken <==> !(k in old(w.store.claims) && old(w.store.claims)[k].expires >= c.now)) &&
                (taken ==> EventLease.Holds(w.store, k, c.token))
    {
      ghost var between := StepTo(c.noise, TakeClaim(m, c.now, c.token));
      taken := StageOf(w, m) != Some(Deferred);
    }

    /** `is_processed`, then `claim_processing`. */
    method Obtain(c: Chance) returns (early: Option<Result>)
      requires Valid() && StageOf(w, m) == Some(Fetched) && AllForeign(c.noise, m, secret)
      requires c.token in secret && c.token !in w.store.issued
      modifies this
      ensures Valid() && SameMessage(old(w), w, m) && DrawsNone(old(w), w, secret - {c.token})
      ensures match early
              case None => StageOf(w, m) == Some(Handling(c.token))
              case Some(SkippedProcessed) =>
                StageOf(w, m) == Some(Settled) && KeyOf(cfg, Current(w, m)) in w.store.processed
              case Some(DeferredMessage) => StageOf(w, m) == Some(Deferred)
              case _ => false
      ensures c.noise == [] ==> early == Undisputed(old(w.store), KeyOf(cfg, old(Current(w, m))), c.now)
      ensures c.noise == [] && early.None? ==> EventLease.Holds(w.store, KeyOf(cfg, Current(w, m)), c.token)
    {
      early := LookTwice(c);
      if early.None? {
        var taken := Take(c);
        early := if taken then None else Some(DeferredMessage);
      }
    }

    /** Retry or dead-letter. */
    method Tell(c: Chance)
      requires Valid() && StageOf(w, m) == Some(Raised(c.token)) && AllForeign(c.noise, m, secret) && c.to < |w.logs|
      modifies this
      ensures Valid() && SameMessage(old(w), w, m) && StageOf(w, m) == Some(Announced(c.token))
      ensures FailureOnRecord(cfg, w, Current(w, m)) && DrawsNone(old(w), w, secret)
    {
      Wait(c.noise);
      ghost var msg, before := Current(w, m), w;
      ActExtends(cfg, w, Announce(m, c.to));
      Do(Announce(m, c.to));
      if Retriable(cfg, msg) {
        assert InLog(w.logs, c.to, |before.logs[c.to]|);
        assert w.logs[c.to][|before.logs[c.to]|] == msg.(attempt := msg.attempt + 1);
      } else {
        assert w.dead[|before.dead|] == msg;
      }
    }

    method StepRaise(c: Chance)
      requires Valid() && StageOf(w, m) == Some(Handling(c.token)) && AllForeign(c.noise, m, secret)
      modifies this
      ensures Valid() && SameMessage(old(w), w, m) && StageOf(w, m) == Some(Raised(c.token)) &&
              DrawsNone(old(w), w, secret)
    {
      ghost var between := StepTo(c.noise, Raise(m));
    }

    method StepRelease(c: Chance)
      requires Valid() && StageOf(w, m) == Some(Announced(c.token)) && AllForeign(c.noise, m, secret)
      modifies this
      ensures Valid() && SameMessage(old(w), w, m) && StageOf(w, m) == Some(Settled) && DrawsNone(old(w), w, secret)
      ensures !EventLease.Holds(w.store, KeyOf(cfg, Current(w, m)), c.token)
    {
      ghost var between := StepTo(c.noise, Release(m, c.now));
    }

    /** The handler raised: retry or dead-letter, then release. */
    method Fail(c: Chance)
      requires Valid() && StageOf(w, m) == Some(Handling(c.token)) && AllForeign(c.noise, m, secret) && c.to < |w.logs|
      modifies this
      ensures Valid() && SameMessage(old(w), w, m) && StageOf(w, m) == Some(Settled)
      ensures FailureOnRecord(cfg, w, Current(w, m)) && DrawsNone(old(w), w, secret)
      ensures !EventLease.Holds(w.store, KeyOf(cfg, Current(w, m)), c.token)
    {
      StepRaise(c);
      Tell(c);
      ghost var told := w;
      StepRelease(c);
      FailureStays(cfg, told, w, Current(told, m));
    }

    /** False stands for the RuntimeError: the claim was taken over and nobody marked the event. */
    method Mark(c: Chance) returns (marked: bool)
      requires Valid() && StageOf(w, m) == Some(Handling(c.token)) && AllForeign(c.noise, m, secret)
      modifies this
      ensures Valid() && Extends(old(w), w) && m < |w.members| && DrawsNone(old(w), w, secret)
      ensures marked ==>
                SameMessage(old(w), w, m) && StageOf(w, m) == Some(Settled) &&
                KeyOf(cfg, Current(w, m)) in w.store.processed
      ensures !marked ==> w.members[m] == Member(map[], None)
      ensures c.noise == [] && EventLease.Holds(old(w.store), KeyOf(cfg, old(Current(w, m))), c.token) ==> marked
    {
      Wait(c.noise);
      marked := EventLease.Marks(w.store, KeyOf(cfg, Current(w, m)), Some(c.token));
      ActExtends(cfg, w, Succeed(m, c.now));
      Do(Succeed(m, c.now));
    }

    /** Whatever the others do: a skipped or handled event is processed, a failed one retried or
        dead-lettered; a lost claim ends the member's work without a commit. */
    method HandleMessage(c: Chance) returns (result: Result)
      requires Valid() && StageOf(w, m) == Some(Fetched) && AllForeign(c.noise, m, secret) && c.to < |w.logs|
      requires c.token in secret && c.token !in w.store.issued
      modifies this
      ensures Valid() && Extends(old(w), w) && m < |w.members|
      ensures DrawsNone(old(w), w, secret - {c.token})
      ensures result.ClaimLost? ==> w.members[m] == Member(map[], None)
      ensures !result.ClaimLost? ==>
                SameMessage(old(w), w, m) &&
                StageOf(w, m) == Some(if result.DeferredMessage? then Deferred else Settled)
      ensures result.Handled? || result.SkippedProcessed? ==> KeyOf(cfg, Current(w, m)) in w.store.processed
      ensures result.FailedRequeued? ==>
                c.raises && FailureOnRecord(cfg, w, Current(w, m)) &&
                !EventLease.Holds(w.store, KeyOf(cfg, Current(w, m)), c.token)
      ensures result.Handled? ==> !c.raises
      ensures c.noise == [] ==>
                result == match Undisputed(old(w.store), KeyOf(cfg, old(Current(w, m))), c.now)
                          case Some(early) => early
                          case None => if c.raises then FailedRequeued else Handled
    {
      var early := Obtain(c);
      if early.Some? {
        return early.value;
      }
      if c.raises {
        Fail(c);
        return FailedRequeued;
      }
      var marked := Mark(c);
      result := if marked then Handled else ClaimLost;
    }

    method TakeNext(from: nat) returns (got: bool)
      requires Valid() && m < |w.members| && w.members[m].flight.None?
      modifies this
      ensures Valid() && m < |w.members| && w.store == old(w.store) && w.logs == old(w.logs)
      ensures got <==> HasNext(old(w), m, from)
      ensures if got then Holding(w, m, from, old(w.members[m].positions)[from]) && StageOf(w, m) == Some(Fetched)
              else w == old(w)
    {
      Do(Fetch(m, from));
      got := w.members[m].flight.Some?;
    }

    /** Lets go of the message: seek back if it was deferred, commit otherwise. */
    method LetGo(result: Result, noise: seq<Move>, ghost from: nat, ghost off: nat)
      requires Valid() && StageOf(w, m) == Some(if result.DeferredMessage? then Deferred else Settled)
      requires AllForeign(noise, m, secret) && Holding(w, m, from, off)
      modifies this
      ensures Valid() && m < |w.members| && w.members[m].flight.None? && Extends(old(w), w) &&
              DrawsNone(old(w), w, secret)
      ensures LeftBehind(w, m, from, off, result.DeferredMessage?, cfg.seeks)
    {
      Wait(noise);
      ActExtends(cfg, w, if result.DeferredMessage? then Defer(m) else Commit(m));
      Do(if result.DeferredMessage? then Defer(m) else Commit(m));
    }

    /** One turn of the loop: None when the partition has nothing to fetch.  A deferred message that
        ends the loop and a lost claim are left as they are. */
    method ConsumeOne(c: Chance, continueOnDeferred: bool) returns (result: Option<Result>, key: EventLease.Key)
      requires Valid() && m < |w.members| && w.members[m].flight.None? && AllForeign(c.noise, m, secret) &&
               c.to < |w.logs|
      requires c.token in secret && c.token !in w.store.issued
      modifies this
      ensures Valid() && m < |w.members| && |w.logs| == |old(w.logs)| && DrawsNone(old(w), w, secret - {c.token})
      ensures old(w.store.processed) <= w.store.processed
      ensures result.None? <==> !HasNext(old(w), m, c.from)
      ensures result == Some(Handled) ==> key in w.store.processed
      ensures Stops(result, continueOnDeferred) || w.members[m].flight.None?
      ensures result.Some? && !Stops(result, continueOnDeferred) ==>
                LeftBehind(w, m, c.from, old(w.members[m].positions)[c.from], result.value.DeferredMessage?, cfg.seeks)
    {
      key := EventLease.Key(0, cfg.consumer);
      ghost var positions := w.members[m].positions;
      var got := TakeNext(c.from);
      if !got {
        return None, key;
      }
      var r := HandleMessage(c);
      result := Some(r);
      if !Stops(result, continueOnDeferred) {
        key := KeyOf(cfg, Current(w, m));
        LetGo(r, c.noise, c.from, positions[c.from]);
      }
    }

    /** The loop: a deferred message is sought back and left for later, or ends the loop; any other
        outcome is committed.  It goes on until an outcome ends it, every message counted is processed,
        the limit is respected, and all committed offsets are accounted for, whatever the others do. */
    method ConsumeMessages(chances: seq<Chance>, maxMessages: Option<nat>, continueOnDeferred: bool)
        returns (consumed: nat, handled: seq<EventLease.Key>, outcomes: seq<Option<Result>>)
      requires Valid() && cfg.seeks && m < |w.members| && w.members[m].flight.None?
      requires forall token :: token in secret ==> token !in w.store.issued
      requires forall i :: 0 <= i < |chances| ==>
                 chances[i].to < |w.logs| && chances[i].token in secret && AllForeign(chances[i].noise, m, secret)
      requires forall i, j :: 0 <= i < j < |chances| ==> chances[i].token != chances[j].token
      modifies this
      ensures Valid() && DeliveryInv(cfg, w) && consumed == |handled| == CountHandled(outcomes)
      ensures forall k :: 0 <= k < |handled| ==> handled[k] in w.store.processed
      ensures maxMessages.Some? && maxMessages.value >= 1 ==> consumed <= maxMessages.value
      ensures |outcomes| <= |chances|
      ensures |outcomes| < |chances| ==> EndsLoop(outcomes, |outcomes|, maxMessages, continueOnDeferred)
      ensures GoesOn(outcomes, |outcomes|, maxMessages, continueOnDeferred)
    {
      consumed, handled, outcomes := 0, [], [];
      for i := 0 to |chances|
        invariant Valid() && m < |w.members| && w.members[m].flight.None? && |w.logs| == |old(w.logs)|
        invariant forall j :: i <= j < |chances| ==> chances[j].token !in w.store.issued
        invariant consumed == |handled| == CountHandled(outcomes) && |outcomes| == i
        invariant forall k :: 0 <= k < |handled| ==> handled[k] in w.store.processed
        invariant maxMessages.Some? && maxMessages.value >= 1 ==> consumed < maxMessages.value
        invariant GoesOn(outcomes, i + 1, maxMessages, continueOnDeferred)
      {
        var result, key := ConsumeOne(chances[i], continueOnDeferred);
        PrefixesStay(outcomes, result, maxMessages, continueOnDeferred);
        outcomes := outcomes + [result];
        if Stops(result, continueOnDeferred) {
          break;
        }
        if result == Some(Handled) {
          handled := handled + [key];
          consumed := consumed + 1;
        }
        if result.Some? && !result.value.DeferredMessage? && maxMessages.Some? && consumed >= maxMessages.value {
          break;
        }
      }
      CommittedIsAccounted(cfg, partitions, trace);
    }
  }
}
