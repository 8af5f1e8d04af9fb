/** At-least-once delivery: partition logs, the consumers of one group, their positions and the
    group's committed offsets, the retry and dead-letter publishers, and the shared claim store.
    A consumer works through one message at a time, but every transaction or network call it makes
    is a step of its own, and it may die and be restarted on any partitions between two steps. */
module Delivery {
  import opened Wrappers
  import EventLease

  datatype Message = Message(event: nat, attempt: nat)

  /** `maxAttempts` is already clamped to at least one; `retries` tells whether a retry publisher is
      configured, `seeks` whether the consumer can seek back to a deferred message. */
  datatype Config = Config(consumer: string, maxAttempts: nat, retries: bool, seeks: bool)

  /** Where `handle_message` stands. */
  datatype Stage =
    | Fetched
    | Unprocessed
    | Claiming
    | Handling(token: nat)
    | Raised(token: nat)
    | Announced(token: nat)
    | Settled
    | Deferred

  datatype Flight = Flight(p: nat, off: nat, stage: Stage)

  datatype Member = Member(positions: map<nat, nat>, flight: Option<Flight>)

  datatype World = World(logs: seq<seq<Message>>, committed: seq<nat>, dead: seq<Message>,
                         store: EventLease.Store, members: seq<Member>)

  datatype Move =
    | Produce(p: nat, event: nat)
    | StoreStep(step: EventLease.Step)
    | Join
    | Restart(m: nat, parts: set<nat>)
    | Fetch(m: nat, p: nat)
    | Check(m: nat)
    | Recheck(m: nat)
    | TakeClaim(m: nat, now: int, token: nat)
    | Succeed(m: nat, now: int)
    | Raise(m: nat)
    | Announce(m: nat, p: nat)
    | Release(m: nat, now: int)
    | Commit(m: nat)
    | Defer(m: nat)

  function Initial(partitions: nat): World {
    World(seq(partitions, i => []), seq(partitions, i => 0), [], EventLease.Empty(), [])
  }

  function KeyOf(cfg: Config, msg: Message): EventLease.Key {
    EventLease.Key(msg.event, cfg.consumer)
  }

  predicate InLog(logs: seq<seq<Message>>, p: nat, off: nat) {
    p < |logs| && off < |logs[p]|
  }

  predicate InFlight(w: World, m: nat) {
    m < |w.members| && w.members[m].flight.Some? &&
    InLog(w.logs, w.members[m].flight.value.p, w.members[m].flight.value.off)
  }

  function Current(w: World, m: nat): Message
    requires InFlight(w, m)
  {
    w.logs[w.members[m].flight.value.p][w.members[m].flight.value.off]
  }

  function StageOf(w: World, m: nat): Option<Stage> {
    if InFlight(w, m) then Some(w.members[m].flight.value.stage) else None
  }

  function WithStage(w: World, m: nat, stage: Stage): World
    requires InFlight(w, m)
  {
    w.(members := w.members[m := w.members[m].(flight := Some(w.members[m].flight.value.(stage := stage)))])
  }

  function WithMember(w: World, m: nat, member: Member): World
    requires m < |w.members|
  {
    w.(members := w.members[m := member])
  }

  predicate Retriable(cfg: Config, msg: Message) {
    cfg.retries && msg.attempt < cfg.maxAttempts
  }

  /** Kafka's commit without arguments: the positions of all partitions the member reads. */
  function CommittedAfter(committed: seq<nat>, positions: map<nat, nat>): (r: seq<nat>)
    ensures |r| == |committed|
    ensures forall p :: 0 <= p < |r| ==> r[p] == if p in positions then positions[p] else committed[p]
  {
    seq(|committed|, p requires 0 <= p < |committed| => if p in positions then positions[p] else committed[p])
  }

  function Act(cfg: Config, w: World, move: Move): World {
    match move
    case Produce(p, event) =>
      if p < |w.logs| then w.(logs := w.logs[p := w.logs[p] + [Message(event, 1)]]) else w
    case StoreStep(step) => w.(store := EventLease.Apply(w.store, step))
    case Join => w.(members := w.members + [Member(map[], None)])
    case Restart(m, parts) =>
      if m < |w.members|
      then WithMember(w, m, Member(map p | p in parts && p < |w.committed| :: w.committed[p], None)) else w
    case Fetch(m, p) =>
      if m < |w.members| && w.members[m].flight.None? && p in w.members[m].positions &&
         InLog(w.logs, p, w.members[m].positions[p])
      then
        var off := w.members[m].positions[p];
        WithMember(w, m, Member(w.members[m].positions[p := off + 1], Some(Flight(p, off, Fetched))))
      else w
    case Check(m) =>
      if StageOf(w, m) == Some(Fetched)
      then WithStage(w, m, if KeyOf(cfg, Current(w, m)) in w.store.processed then Settled else Unprocessed) else w
    case Recheck(m) =>
      if StageOf(w, m) == Some(Unprocessed)
      then WithStage(w, m, if KeyOf(cfg, Current(w, m)) in w.store.processed then Deferred else Claiming) else w
    case TakeClaim(m, now, token) =>
      if StageOf(w, m) == Some(Claiming) && token !in w.store.issued
      then
        var k := KeyOf(cfg, Current(w, m));
        var free := EventLease.Free(w.store, k, now);
        WithStage(w, m, if free then Handling(token) else Deferred).(
          store := EventLease.Apply(w.store, EventLease.ClaimKey(k, now, token)))
      else w
    case Succeed(m, now) => Succeeded(cfg, w, m, now)
    case Raise(m) =>
      if StageOf(w, m).Some? && StageOf(w, m).value.Handling?
      then WithStage(w, m, Raised(StageOf(w, m).value.token)) else w
    case Announce(m, p) => AnnouncedFailure(cfg, w, m, p)
    case Release(m, now) =>
      if StageOf(w, m).Some? && StageOf(w, m).value.Announced?
      then
        var step := EventLease.ReleaseKey(KeyOf(cfg, Current(w, m)), now, Some(StageOf(w, m).value.token));
        WithStage(w, m, Settled).(store := EventLease.Apply(w.store, step))
      else w
    case Commit(m) =>
      if StageOf(w, m) == Some(Settled)
      then WithMember(w, m, w.members[m].(flight := None))
           .(committed := CommittedAfter(w.committed, w.members[m].positions))
      else w
    case Defer(m) =>
      if StageOf(w, m) == Some(Deferred)
      then
        var f := w.members[m].flight.value;
        WithMember(
          w, m, Member(if cfg.seeks then w.members[m].positions[f.p := f.off] else w.members[m].positions, None))
      else w
  }

  /** Marking with a lost claim raises: the loop stops without a commit. */
  function Succeeded(cfg: Config, w: World, m: nat, now: int): World {
    if StageOf(w, m).Some? && StageOf(w, m).value.Handling? then
      var k := KeyOf(cfg, Current(w, m));
      var holder := Some(StageOf(w, m).value.token);
      if EventLease.Marks(w.store, k, holder)
      then WithStage(w, m, Settled).(store := EventLease.Apply(w.store, EventLease.MarkKey(k, now, holder)))
      else WithMember(w, m, Member(map[], None))
    else w
  }

  /** A failed message is republished with the next attempt number, or dead-lettered. */
  function AnnouncedFailure(cfg: Config, w: World, m: nat, p: nat): World {
    if StageOf(w, m).Some? && StageOf(w, m).value.Raised? && p < |w.logs| then
      var msg := Current(w, m);
      var after := WithStage(w, m, Announced(StageOf(w, m).value.token));
      if Retriable(cfg, msg)
      then after.(logs := w.logs[p := w.logs[p] + [msg.(attempt := msg.attempt + 1)]])
      else after.(dead := w.dead + [msg])
    else w
  }

  function Run(cfg: Config, w: World, moves: seq<Move>): World {
    if moves == [] then w else Act(cfg, Run(cfg, w, moves[..|moves| - 1]), moves[|moves| - 1])
  }

  // --- What a message can have come to ---

  ghost predicate Logged(logs: seq<seq<Message>>, msg: Message) {
    exists p: nat, off: nat :: InLog(logs, p, off) && logs[p][off] == msg
  }

  predicate Resolved(cfg: Config, w: World, msg: Message) {
    KeyOf(cfg, msg) in w.store.processed || msg in w.dead
  }

  ghost predicate Accounted(cfg: Config, w: World, msg: Message) {
    Resolved(cfg, w, msg) || (msg.attempt + 1 <= cfg.maxAttempts && Logged(w.logs, msg.(attempt := msg.attempt + 1)))
  }

  /** `w'` has everything that `w` recorded. */
  predicate Extends(w: World, w': World) {
    |w.logs| == |w'.logs| && |w.committed| == |w'.committed| &&
    (forall p :: 0 <= p < |w.logs| ==> w.logs[p] <= w'.logs[p]) &&
    w.store.processed <= w'.store.processed && w.dead <= w'.dead
  }

  lemma ActExtends(cfg: Config, w: World, move: Move)
    ensures Extends(w, Act(cfg, w, move))
  {
  }

  // --- The invariant ---

  /** Stages in which the outcome of the message is already on record. */
  predicate OnRecord(stage: Stage) {
    stage.Announced? || stage.Settled?
  }

  ghost predicate PrefixAccounted(cfg: Config, w: World, p: nat, end: nat) {
    p < |w.logs| && end <= |w.logs[p]| && forall off :: 0 <= off < end ==> Accounted(cfg, w, w.logs[p][off])
  }

  /** Everything before a member's positions is accounted for, but for the message in its hands. */
  ghost predicate MemberInv(cfg: Config, w: World, member: Member) {
    (forall p :: p in member.positions ==>
      PrefixAccounted(cfg, w, p,
        if member.flight.Some? && member.flight.value.p == p && !OnRecord(member.flight.value.stage)
        then member.flight.value.off else member.positions[p])) &&
    (member.flight.Some? ==>
      var f := member.flight.value;
      InLog(w.logs, f.p, f.off) && f.p in member.positions && member.positions[f.p] == f.off + 1)
  }

  ghost predicate CommittedInv(cfg: Config, w: World) {
    |w.committed| == |w.logs| && forall p :: 0 <= p < |w.committed| ==> PrefixAccounted(cfg, w, p, w.committed[p])
  }

  ghost predicate DeliveryInv(cfg: Config, w: World) {
    CommittedInv(cfg, w) && forall m :: 0 <= m < |w.members| ==> MemberInv(cfg, w, w.members[m])
  }

  lemma PrefixStays(cfg: Config, w: World, w': World, p: nat, end: nat)
    requires Extends(w, w') && PrefixAccounted(cfg, w, p, end)
    ensures PrefixAccounted(cfg, w', p, end)
  {
  }

  lemma MemberStays(cfg: Config, w: World, w': World, member: Member)
    requires Extends(w, w') && MemberInv(cfg, w, member)
    ensures MemberInv(cfg, w', member)
  {
  }

  /** Only the acting member needs a look: the rest follows from growing records. */
  lemma InvFromActor(cfg: Config, w: World, w': World, m: nat)
    requires DeliveryInv(cfg, w) && Extends(w, w') && m < |w.members| == |w'.members|
    requires forall i :: 0 <= i < |w.members| && i != m ==> w'.members[i] == w.members[i]
    requires MemberInv(cfg, w', w'.members[m])
    requires w'.committed == w.committed || w'.committed == CommittedAfter(w.committed, w'.members[m].positions)
    requires w'.committed != w.committed ==> w'.members[m].flight.None?
    ensures DeliveryInv(cfg, w')
  {
    forall i | 0 <= i < |w.members| && i != m
      ensures MemberInv(cfg, w', w'.members[i])
    {
      MemberStays(cfg, w, w', w.members[i]);
    }
    forall p | 0 <= p < |w.committed|
      ensures PrefixAccounted(cfg, w', p, w'.committed[p])
    {
      PrefixStays(cfg, w, w', p, w.committed[p]);
    }
  }

  lemma AnnounceKeepsMember(cfg: Config, w: World, m: nat, p: nat)
    requires DeliveryInv(cfg, w) && StageOf(w, m).Some? && StageOf(w, m).value.Raised? && p < |w.logs|
    ensures MemberInv(cfg, AnnouncedFailure(cfg, w, m, p), AnnouncedFailure(cfg, w, m, p).members[m])
  {
    var w' := AnnouncedFailure(cfg, w, m, p);
    var msg := Current(w, m);
    ActExtends(cfg, w, Announce(m, p));
    MemberStays(cfg, w, w', w.members[m]);
    if Retriable(cfg, msg) {
      assert InLog(w'.logs, p, |w.logs[p]|) && w'.logs[p][|w.logs[p]|] == msg.(attempt := msg.attempt + 1);
    } else {
      assert w'.dead[|w.dead|] == msg;
    }
    assert Accounted(cfg, w', msg);
    RecordSettles(cfg, w', w.members[m], StageOf(w', m).value);
  }

  /** A member whose message is on record has its whole prefix accounted for. */
  lemma RecordSettles(cfg: Config, w: World, member: Member, stage: Stage)
    requires MemberInv(cfg, w, member) && member.flight.Some?
    requires Accounted(cfg, w, w.logs[member.flight.value.p][member.flight.value.off])
    ensures MemberInv(cfg, w, member.(flight := Some(member.flight.value.(stage := stage))))
  {
  }

  lemma SucceedKeepsMember(cfg: Config, w: World, m: nat, now: int)
    requires DeliveryInv(cfg, w) && StageOf(w, m).Some? && StageOf(w, m).value.Handling?
    ensures MemberInv(cfg, Succeeded(cfg, w, m, now), Succeeded(cfg, w, m, now).members[m])
  {
  }

  lemma CheckKeepsMember(cfg: Config, w: World, m: nat)
    requires DeliveryInv(cfg, w) && StageOf(w, m) == Some(Fetched)
    ensures MemberInv(cfg, Act(cfg, w, Check(m)), Act(cfg, w, Check(m)).members[m])
  {
  }

  lemma RestartKeepsMember(cfg: Config, w: World, m: nat, parts: set<nat>)
    requires DeliveryInv(cfg, w) && m < |w.members|
    ensures MemberInv(cfg, Act(cfg, w, Restart(m, parts)), Act(cfg, w, Restart(m, parts)).members[m])
  {
  }

  /** Fetching, committing and seeking back move the position next to the message in hand. */
  lemma PositionKeepsMember(cfg: Config, w: World, move: Move)
    requires DeliveryInv(cfg, w) && cfg.seeks
    requires (move.Fetch? || move.Commit? || move.Defer?) && move.m < |w.members|
    ensures MemberInv(cfg, Act(cfg, w, move), Act(cfg, w, move).members[move.m])
  {
    var w' := Act(cfg, w, move);
    ActExtends(cfg, w, move);
    MemberStays(cfg, w, w', w.members[move.m]);
  }

  /** A stage changes without the outcome being on record, or after it is. */
  lemma StageKeepsMember(cfg: Config, w: World, move: Move)
    requires DeliveryInv(cfg, w)
    requires (move.Recheck? || move.TakeClaim? || move.Raise? || move.Release?) && move.m < |w.members|
    ensures MemberInv(cfg, Act(cfg, w, move), Act(cfg, w, move).members[move.m])
  {
    var w' := Act(cfg, w, move);
    ActExtends(cfg, w, move);
    MemberStays(cfg, w, w', w.members[move.m]);
  }

  lemma MemberActs(cfg: Config, w: World, move: Move)
    requires DeliveryInv(cfg, w) && cfg.seeks
    requires !move.Produce? && !move.StoreStep? && !move.Join? && move.m < |w.members|
    ensures MemberInv(cfg, Act(cfg, w, move), Act(cfg, w, move).members[move.m])
  {
    match move
    case Restart(m, parts) => RestartKeepsMember(cfg, w, m, parts);
    case Succeed(m, now) =>
      if StageOf(w, m).Some? && StageOf(w, m).value.Handling? { SucceedKeepsMember(cfg, w, m, now); }
    case Announce(m, p) =>
      if StageOf(w, m).Some? && StageOf(w, m).value.Raised? && p < |w.logs| { AnnounceKeepsMember(cfg, w, m, p); }
    case Check(m) => if StageOf(w, m) == Some(Fetched) { CheckKeepsMember(cfg, w, m); }
    case Fetch(_, _) => PositionKeepsMember(cfg, w, move);
    case Commit(_) => PositionKeepsMember(cfg, w, move);
    case Defer(_) => PositionKeepsMember(cfg, w, move);
    case _ => StageKeepsMember(cfg, w, move);
  }

  /** Producers, other users of the claim store and new members touch no position. */
  lemma SurroundingsKeepInv(cfg: Config, w: World, move: Move)
    requires DeliveryInv(cfg, w) && (move.Produce? || move.StoreStep? || move.Join?)
    ensures DeliveryInv(cfg, Act(cfg, w, move))
  {
    var w' := Act(cfg, w, move);
    ActExtends(cfg, w, move);
    forall i | 0 <= i < |w.members|
      ensures MemberInv(cfg, w', w'.members[i])
    {
      MemberStays(cfg, w, w', w.members[i]);
    }
    forall p | 0 <= p < |w.committed|
      ensures PrefixAccounted(cfg, w', p, w'.committed[p])
    {
      PrefixStays(cfg, w, w', p, w.committed[p]);
    }
  }

  /** What a member's step may change beside the member itself. */
  lemma MemberFrame(cfg: Config, w: World, move: Move)
    requires !move.Produce? && !move.StoreStep? && !move.Join? && move.m < |w.members|
    ensures var w' := Act(cfg, w, move);
            |w'.members| == |w.members| &&
            (forall i :: 0 <= i < |w.members| && i != move.m ==> w'.members[i] == w.members[i]) &&
            (w'.committed == w.committed ||
             (w'.members[move.m].flight.None? &&
              w'.committed == CommittedAfter(w.committed, w'.members[move.m].positions)))
  {
  }

  lemma ActKeepsDeliveryInv(cfg: Config, w: World, move: Move)
    requires DeliveryInv(cfg, w) && cfg.seeks
    ensures DeliveryInv(cfg, Act(cfg, w, move))
  {
    if move.Produce? || move.StoreStep? || move.Join? {
      SurroundingsKeepInv(cfg, w, move);
    } else if move.m < |w.members| {
      ActExtends(cfg, w, move);
      MemberActs(cfg, w, move);
      MemberFrame(cfg, w, move);
      InvFromActor(cfg, w, Act(cfg, w, move), move.m);
    }
  }

  /** With seek-back, in every run every message below a committed offset is processed, was
      republished with the next attempt number within the limit, or was dead-lettered. */
  lemma {:induction false} CommittedIsAccounted(cfg: Config, partitions: nat, moves: seq<Move>)
    requires cfg.seeks
    ensures DeliveryInv(cfg, Run(cfg, Initial(partitions), moves))
  {
    if moves != [] {
      var n := |moves| - 1;
      CommittedIsAccounted(cfg, partitions, moves[..n]);
      ActKeepsDeliveryInv(cfg, Run(cfg, Initial(partitions), moves[..n]), moves[n]);
    }
  }

  // --- Retry lineages ---

  /** A message starts at attempt 1, or its predecessor is in the logs and the limit allowed it. */
  ghost predicate Descends(cfg: Config, w: World, msg: Message) {
    msg.attempt == 1 || (1 < msg.attempt <= cfg.maxAttempts && Logged(w.logs, msg.(attempt := msg.attempt - 1)))
  }

  ghost predicate LineageInv(cfg: Config, w: World) {
    forall p: nat, off: nat :: InLog(w.logs, p, off) ==> Descends(cfg, w, w.logs[p][off])
  }

  lemma DescendsStays(cfg: Config, w: World, w': World, msg: Message)
    requires Extends(w, w') && Descends(cfg, w, msg)
    ensures Descends(cfg, w', msg)
  {
  }

  lemma NewMessageDescends(cfg: Config, w: World, move: Move, p: nat, off: nat)
    requires LineageInv(cfg, w) && InLog(Act(cfg, w, move).logs, p, off) && !InLog(w.logs, p, off)
    ensures Descends(cfg, w, Act(cfg, w, move).logs[p][off])
  {
  }

  lemma {:induction false} RunKeepsLineage(cfg: Config, partitions: nat, moves: seq<Move>)
    ensures LineageInv(cfg, Run(cfg, Initial(partitions), moves))
  {
    if moves != [] {
      var n := |moves| - 1;
      RunKeepsLineage(cfg, partitions, moves[..n]);
      var w := Run(cfg, Initial(partitions), moves[..n]);
      var w' := Act(cfg, w, moves[n]);
      ActExtends(cfg, w, moves[n]);
      forall p: nat, off: nat | InLog(w'.logs, p, off)
        ensures Descends(cfg, w', w'.logs[p][off])
      {
        if !InLog(w.logs, p, off) {
          NewMessageDescends(cfg, w, moves[n], p, off);
        }
        DescendsStays(cfg, w, w', w'.logs[p][off]);
      }
    }
  }

  /** A message at attempt `a` has its whole lineage 1..a in the logs, and `a` is within the limit. */
  lemma {:induction false} LineageIsComplete(cfg: Config, w: World, msg: Message, attempt: nat)
    requires LineageInv(cfg, w) && Logged(w.logs, msg) && 1 <= attempt <= msg.attempt
    ensures Logged(w.logs, msg.(attempt := attempt)) && (msg.attempt == 1 || msg.attempt <= cfg.maxAttempts)
    decreases msg.attempt
  {
    assert Descends(cfg, w, msg);
    if attempt < msg.attempt {
      LineageIsComplete(cfg, w, msg.(attempt := msg.attempt - 1), attempt);
    }
  }

  // --- Who is dead-lettered ---

  /** A dead-lettered message is in the logs and had no attempt left. */
  ghost predicate DeadFits(cfg: Config, w: World) {
    forall i :: 0 <= i < |w.dead| ==>
      (!cfg.retries || w.dead[i].attempt >= cfg.maxAttempts) && Logged(w.logs, w.dead[i])
  }

  /** Without a retry publisher nothing but first attempts is in the logs. */
  predicate FirstAttempts(cfg: Config, logs: seq<seq<Message>>) {
    !cfg.retries ==> forall p, off :: 0 <= p < |logs| && 0 <= off < |logs[p]| ==> logs[p][off].attempt == 1
  }

  lemma ActKeepsFirstAttempts(cfg: Config, w: World, move: Move)
    requires FirstAttempts(cfg, w.logs)
    ensures FirstAttempts(cfg, Act(cfg, w, move).logs)
  {
  }

  lemma ActKeepsDead(cfg: Config, w: World, move: Move)
    requires DeadFits(cfg, w)
    ensures DeadFits(cfg, Act(cfg, w, move))
  {
    var w' := Act(cfg, w, move);
    ActExtends(cfg, w, move);
    forall i | 0 <= i < |w'.dead|
      ensures (!cfg.retries || w'.dead[i].attempt >= cfg.maxAttempts) && Logged(w'.logs, w'.dead[i])
    {
      if i < |w.dead| {
        LoggedStays(w, w', w.dead[i]);
      } else {
        assert InLog(w.logs, w.members[move.m].flight.value.p, w.members[move.m].flight.value.off);
        LoggedStays(w, w', w'.dead[i]);
      }
    }
  }

  lemma LoggedStays(w: World, w': World, msg: Message)
    requires Extends(w, w') && Logged(w.logs, msg)
    ensures Logged(w'.logs, msg)
  {
    var p: nat, off: nat :| InLog(w.logs, p, off) && w.logs[p][off] == msg;
    assert InLog(w'.logs, p, off) && w'.logs[p][off] == msg;
  }

  /** In every run only messages without an attempt left are dead-lettered: with a retry publisher each
      has attempts 1 to maxAttempts behind it, all in the logs, and without one only first attempts exist. */
  lemma {:induction false} DeadHadAllAttempts(cfg: Config, partitions: nat, moves: seq<Move>)
    requires cfg.maxAttempts >= 1
    ensures var w := Run(cfg, Initial(partitions), moves);
            DeadFits(cfg, w) && FirstAttempts(cfg, w.logs) &&
            forall i :: 0 <= i < |w.dead| ==>
              w.dead[i].attempt == (if cfg.retries then cfg.maxAttempts else 1) &&
              forall attempt :: 1 <= attempt <= w.dead[i].attempt ==>
                Logged(w.logs, Message(w.dead[i].event, attempt))
  {
    var w := Run(cfg, Initial(partitions), moves);
    if moves != [] {
      var n := |moves| - 1;
      DeadHadAllAttempts(cfg, partitions, moves[..n]);
      ActKeepsDead(cfg, Run(cfg, Initial(partitions), moves[..n]), moves[n]);
      ActKeepsFirstAttempts(cfg, Run(cfg, Initial(partitions), moves[..n]), moves[n]);
    }
    RunKeepsLineage(cfg, partitions, moves);
    forall i | 0 <= i < |w.dead|
      ensures w.dead[i].attempt == if cfg.retries then cfg.maxAttempts else 1
    {
      DeadAttempt(cfg, w, w.dead[i]);
    }
    forall i, attempt | 0 <= i < |w.dead| && 1 <= attempt <= w.dead[i].attempt
      ensures Logged(w.logs, Message(w.dead[i].event, attempt))
    {
      LineageIsComplete(cfg, w, w.dead[i], attempt);
    }
  }

  lemma DeadAttempt(cfg: Config, w: World, msg: Message)
    requires cfg.maxAttempts >= 1 && LineageInv(cfg, w) && DeadFits(cfg, w) && FirstAttempts(cfg, w.logs)
    requires msg in w.dead
    ensures msg.attempt == if cfg.retries then cfg.maxAttempts else 1
  {
    var i :| 0 <= i < |w.dead| && w.dead[i] == msg;
    var p: nat, off: nat :| InLog(w.logs, p, off) && w.logs[p][off] == msg;
    assert Descends(cfg, w, msg);
  }

  ghost predicate LineageResolved(cfg: Config, w: World, msg: Message) {
    KeyOf(cfg, msg) in w.store.processed ||
    exists last :: last in w.dead && last.event == msg.event && last.attempt >= msg.attempt
  }

  /** Once every log is committed to its end, every event was processed or its lineage ended in the
      dead-letter topic: attempts left is the measure that runs out. */
  lemma {:induction false} DrainedMeansResolved(cfg: Config, w: World, msg: Message)
    requires DeliveryInv(cfg, w) && Logged(w.logs, msg)
    requires forall p :: 0 <= p < |w.logs| ==> w.committed[p] == |w.logs[p]|
    ensures LineageResolved(cfg, w, msg)
    decreases cfg.maxAttempts - msg.attempt
  {
    var p: nat, off: nat :| InLog(w.logs, p, off) && w.logs[p][off] == msg;
    assert PrefixAccounted(cfg, w, p, w.committed[p]);
    assert Accounted(cfg, w, msg);
    if !Resolved(cfg, w, msg) {
      DrainedMeansResolved(cfg, w, msg.(attempt := msg.attempt + 1));
    }
  }

  // --- Why the seek-back is needed ---

  ghost predicate Reachable(cfg: Config, w: World) {
    exists partitions: nat, moves: seq<Move> :: Run(cfg, Initial(partitions), moves) == w
  }

  lemma ReachStart(cfg: Config, partitions: nat)
    ensures Reachable(cfg, Initial(partitions))
  {
    assert Run(cfg, Initial(partitions), []) == Initial(partitions);
  }

  /** Equality of worlds, field by field and element by element. */
  predicate Same(v: World, w: World) {
    |v.logs| == |w.logs| && (forall p :: 0 <= p < |v.logs| ==> v.logs[p] == w.logs[p]) &&
    v.committed == w.committed && v.dead == w.dead &&
    v.store.claims == w.store.claims && v.store.processed == w.store.processed && v.store.issued == w.store.issued &&
    |v.members| == |w.members| &&
    (forall m :: 0 <= m < |v.members| ==>
      v.members[m].positions == w.members[m].positions && v.members[m].flight == w.members[m].flight)
  }

  lemma SameIsEqual(v: World, w: World)
    requires Same(v, w)
    ensures v == w
  {
  }

  lemma Reach(cfg: Config, w: World, move: Move, w': World)
    requires Reachable(cfg, w) && Same(Act(cfg, w, move), w')
    ensures Reachable(cfg, w')
  {
    SameIsEqual(Act(cfg, w, move), w');
    var partitions: nat, moves: seq<Move> :| Run(cfg, Initial(partitions), moves) == w;
    assert (moves + [move])[..|moves|] == moves;
    assert Run(cfg, Initial(partitions), moves + [move]) == w';
  }

  /** One partition with two messages, read by one member. */
  function Scene(store: EventLease.Store, committed: nat, position: nat, flight: Option<Flight>): World {
    World([[Message(0, 1), Message(1, 1)]], [committed], [], store, [Member(map[0 := position], flight)])
  }

  /** Somebody else holds the claim on the first message's event. */
  function Claimed(cfg: Config): EventLease.Store {
    EventLease.Store(map[EventLease.Key(0, cfg.consumer) := EventLease.Claim(7, 900)], [], {7})
  }

  lemma ReachMessages(cfg: Config)
    ensures Reachable(cfg, World([[Message(0, 1), Message(1, 1)]], [0], [], EventLease.Empty(), []))
  {
    ReachStart(cfg, 1);
    var w0 := World([[]], [0], [], EventLease.Empty(), []);
    SameIsEqual(Initial(1), w0);
    var w1 := w0.(logs := [[Message(0, 1)]]);
    Reach(cfg, w0, Produce(0, 0), w1);
    Reach(cfg, w1, Produce(0, 1), w0.(logs := [[Message(0, 1), Message(1, 1)]]));
  }

  lemma ReachScene(cfg: Config)
    ensures Reachable(cfg, Scene(Claimed(cfg), 0, 0, None))
  {
    ReachMessages(cfg);
    var w2 := World([[Message(0, 1), Message(1, 1)]], [0], [], EventLease.Empty(), []);
    var w3 := w2.(store := Claimed(cfg));
    Reach(cfg, w2, StoreStep(EventLease.ClaimKey(EventLease.Key(0, cfg.consumer), 0, 7)), w3);
    var w4 := w3.(members := [Member(map[], None)]);
    Reach(cfg, w3, Join, w4);
    Reach(cfg, w4, Restart(0, {0}), Scene(Claimed(cfg), 0, 0, None));
  }

  lemma FetchScene(cfg: Config, store: EventLease.Store, off: nat)
    requires off < 2 && Reachable(cfg, Scene(store, 0, off, None))
    ensures Reachable(cfg, Scene(store, 0, off + 1, Some(Flight(0, off, Fetched))))
  {
    Reach(cfg, Scene(store, 0, off, None), Fetch(0, 0), Scene(store, 0, off + 1, Some(Flight(0, off, Fetched))));
  }

  /** Message `off` was found unprocessed twice. */
  lemma CheckScene(cfg: Config, store: EventLease.Store, off: nat)
    requires off < 2 && store.processed == [] && Reachable(cfg, Scene(store, 0, off + 1, Some(Flight(0, off, Fetched))))
    ensures Reachable(cfg, Scene(store, 0, off + 1, Some(Flight(0, off, Claiming))))
  {
    var w := Scene(store, 0, off + 1, Some(Flight(0, off, Unprocessed)));
    Reach(cfg, Scene(store, 0, off + 1, Some(Flight(0, off, Fetched))), Check(0), w);
    Reach(cfg, w, Recheck(0), Scene(store, 0, off + 1, Some(Flight(0, off, Claiming))));
  }

  lemma RefusedScene(cfg: Config)
    requires Reachable(cfg, Scene(Claimed(cfg), 0, 1, Some(Flight(0, 0, Claiming))))
    ensures Reachable(cfg, Scene(Claimed(cfg), 0, 1, Some(Flight(0, 0, Deferred))))
  {
    Reach(cfg, Scene(Claimed(cfg), 0, 1, Some(Flight(0, 0, Claiming))), TakeClaim(0, 0, 8),
          Scene(Claimed(cfg), 0, 1, Some(Flight(0, 0, Deferred))));
  }

  lemma UnsoughtScene(cfg: Config)
    requires !cfg.seeks && Reachable(cfg, Scene(Claimed(cfg), 0, 1, Some(Flight(0, 0, Deferred))))
    ensures Reachable(cfg, Scene(Claimed(cfg), 0, 1, None))
  {
    Reach(cfg, Scene(Claimed(cfg), 0, 1, Some(Flight(0, 0, Deferred))), Defer(0), Scene(Claimed(cfg), 0, 1, None));
  }

  /** The first message is deferred, and without seek-back the position stays behind it. */
  lemma DeferredWithoutSeek(cfg: Config)
    requires !cfg.seeks
    ensures Reachable(cfg, Scene(Claimed(cfg), 0, 1, None))
  {
    ReachScene(cfg);
    FetchScene(cfg, Claimed(cfg), 0);
    CheckScene(cfg, Claimed(cfg), 0);
    RefusedScene(cfg);
    UnsoughtScene(cfg);
  }

  lemma ClaimScene(cfg: Config)
    requires Reachable(cfg, Scene(Claimed(cfg), 0, 2, Some(Flight(0, 1, Claiming))))
    ensures var held := EventLease.Apply(Claimed(cfg), EventLease.ClaimKey(EventLease.Key(1, cfg.consumer), 0, 8));
            EventLease.Holds(held, EventLease.Key(1, cfg.consumer), 8) && held.processed == [] &&
            Reachable(cfg, Scene(held, 0, 2, Some(Flight(0, 1, Handling(8)))))
  {
    var held := EventLease.Apply(Claimed(cfg), EventLease.ClaimKey(EventLease.Key(1, cfg.consumer), 0, 8));
    Reach(cfg, Scene(Claimed(cfg), 0, 2, Some(Flight(0, 1, Claiming))), TakeClaim(0, 0, 8),
          Scene(held, 0, 2, Some(Flight(0, 1, Handling(8)))));
  }

  lemma MarkScene(cfg: Config, held: EventLease.Store) returns (store: EventLease.Store)
    requires EventLease.Holds(held, EventLease.Key(1, cfg.consumer), 8) && held.processed == []
    requires Reachable(cfg, Scene(held, 0, 2, Some(Flight(0, 1, Handling(8)))))
    ensures Reachable(cfg, Scene(store, 0, 2, Some(Flight(0, 1, Settled)))) &&
            store.processed == [EventLease.Key(1, cfg.consumer)]
  {
    store := EventLease.Apply(held, EventLease.MarkKey(EventLease.Key(1, cfg.consumer), 0, Some(8)));
    Reach(cfg, Scene(held, 0, 2, Some(Flight(0, 1, Handling(8)))), Succeed(0, 0),
          Scene(store, 0, 2, Some(Flight(0, 1, Settled))));
  }

  lemma CommitScene(cfg: Config, store: EventLease.Store)
    requires Reachable(cfg, Scene(store, 0, 2, Some(Flight(0, 1, Settled))))
    ensures Reachable(cfg, Scene(store, 2, 2, None))
  {
    Reach(cfg, Scene(store, 0, 2, Some(Flight(0, 1, Settled))), Commit(0), Scene(store, 2, 2, None));
  }

  /** The second message is handled, and its commit covers both. */
  lemma CommitCoversBoth(cfg: Config) returns (store: EventLease.Store)
    requires !cfg.seeks
    ensures Reachable(cfg, Scene(store, 2, 2, None)) && store.processed == [EventLease.Key(1, cfg.consumer)]
  {
    DeferredWithoutSeek(cfg);
    FetchScene(cfg, Claimed(cfg), 1);
    CheckScene(cfg, Claimed(cfg), 1);
    ClaimScene(cfg);
    store := MarkScene(cfg, EventLease.Apply(Claimed(cfg), EventLease.ClaimKey(EventLease.Key(1, cfg.consumer), 0, 8)));
    CommitScene(cfg, store);
  }

  /** Committed offsets cover only accounted messages in all runs if and only if the consumer seeks back. */
  lemma OffsetsSafeIff(cfg: Config)
    ensures (forall w :: Reachable(cfg, w) ==> CommittedInv(cfg, w)) <==> cfg.seeks
  {
    if cfg.seeks {
      forall w | Reachable(cfg, w)
        ensures CommittedInv(cfg, w)
      {
        var partitions: nat, moves: seq<Move> :| Run(cfg, Initial(partitions), moves) == w;
        CommittedIsAccounted(cfg, partitions, moves);
      }
    } else {
      var store := CommitCoversBoth(cfg);
      var w := Scene(store, 2, 2, None);
      assert w.logs[0][0] == Message(0, 1);
      assert !Accounted(cfg, w, Message(0, 1));
      assert !PrefixAccounted(cfg, w, 0, w.committed[0]);
    }
  }
}
