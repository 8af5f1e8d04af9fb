/** The read/write lock built on one condition variable: tasks take the condition's mutex, test their
    wait condition, and park or pass; leaving tasks update the counts under the mutex and notify. */
module RwLock {
  import opened Wrappers

  datatype Kind = Read | Write

  /** Where a task is with respect to one lock. */
  datatype Pc =
    | Idle
    | Entering(kind: Kind)
    | Testing(kind: Kind)
    | Parked(kind: Kind)
    | Notified(kind: Kind)
    | Holding(kind: Kind)
    | Leaving(kind: Kind)
    | Updating(kind: Kind)

  /** `leakedReads` and `leakedWrites` count the tasks that went away without giving the lock back. */
  datatype State = State(readers: int, writer: bool, mutex: Option<nat>, tasks: seq<Pc>, leakedReads: nat,
                         leakedWrites: nat)

  datatype Step =
    | Arrive
    | Request(t: nat, kind: Kind)
    | TakeMutex(t: nat)
    | Test(t: nat)
    | Finish(t: nat)
    | Leave(t: nat)
    | Cancel(t: nat)
    | CancelLeaving(t: nat)

  /** The wait condition. */
  predicate MayPass(readers: int, writer: bool, kind: Kind) {
    !writer && (kind.Write? ==> readers == 0)
  }

  predicate WantsMutex(pc: Pc) {
    pc.Entering? || pc.Notified? || pc.Leaving?
  }

  predicate InMutex(pc: Pc) {
    pc.Testing? || pc.Updating?
  }

  predicate Holds(pc: Pc, kind: Kind) {
    (pc.Holding? || pc.Leaving? || pc.Updating?) && pc.kind == kind
  }

  function Woken(tasks: seq<Pc>): (r: seq<Pc>)
    ensures |r| == |tasks|
    ensures forall i :: 0 <= i < |r| ==> r[i] == if tasks[i].Parked? then Notified(tasks[i].kind) else tasks[i]
  {
    seq(|tasks|, i requires 0 <= i < |tasks| => if tasks[i].Parked? then Notified(tasks[i].kind) else tasks[i])
  }

  /** Entering: pass, or park and give the mutex back. */
  function Tested(s: State, t: nat): State
    requires t < |s.tasks| && s.tasks[t].Testing?
  {
    var kind := s.tasks[t].kind;
    if !MayPass(s.readers, s.writer, kind) then s.(mutex := None, tasks := s.tasks[t := Parked(kind)])
    else if kind.Read? then s.(readers := s.readers + 1, mutex := None, tasks := s.tasks[t := Holding(Read)])
    else s.(writer := true, mutex := None, tasks := s.tasks[t := Holding(Write)])
  }

  /** Leaving: the last reader and every writer wake all parked tasks. */
  function Left(s: State, t: nat): State
    requires t < |s.tasks| && s.tasks[t].Updating?
  {
    var tasks := s.tasks[t := Idle];
    if s.tasks[t].kind.Write? then s.(writer := false, mutex := None, tasks := Woken(tasks))
    else s.(readers := s.readers - 1, mutex := None, tasks := if s.readers == 1 then Woken(tasks) else tasks)
  }

  predicate Is(s: State, t: nat) {
    t < |s.tasks|
  }

  /** A leaving task that is cancelled while it waits for the mutex goes away without the update. */
  function Leaked(s: State, t: nat): State
    requires t < |s.tasks| && s.tasks[t].Leaving?
  {
    s.(tasks := s.tasks[t := Idle],
       leakedReads := s.leakedReads + if s.tasks[t].kind.Read? then 1 else 0,
       leakedWrites := s.leakedWrites + if s.tasks[t].kind.Write? then 1 else 0)
  }

  /** `Cancel` is the cancellation of a task that waits to enter. */
  function Apply(s: State, step: Step): State {
    match step
    case Arrive => s.(tasks := s.tasks + [Idle])
    case Request(t, kind) => if Is(s, t) && s.tasks[t].Idle? then s.(tasks := s.tasks[t := Entering(kind)]) else s
    case TakeMutex(t) =>
      if Is(s, t) && WantsMutex(s.tasks[t]) && s.mutex.None?
      then s.(mutex := Some(t),
              tasks := s.tasks[t := if s.tasks[t].Leaving? then Updating(s.tasks[t].kind)
                                    else Testing(s.tasks[t].kind)])
      else s
    case Test(t) => if Is(s, t) && s.tasks[t].Testing? then Tested(s, t) else s
    case Finish(t) => if Is(s, t) && s.tasks[t].Holding? then s.(tasks := s.tasks[t := Leaving(s.tasks[t].kind)]) else s
    case Leave(t) => if Is(s, t) && s.tasks[t].Updating? then Left(s, t) else s
    case Cancel(t) =>
      if Is(s, t) && (s.tasks[t].Entering? || s.tasks[t].Parked? || s.tasks[t].Notified?)
      then s.(tasks := s.tasks[t := Idle]) else s
    case CancelLeaving(t) => if Is(s, t) && s.tasks[t].Leaving? then Leaked(s, t) else s
  }

  function Run(s: State, steps: seq<Step>): State {
    if steps == [] then s else Apply(Run(s, steps[..|steps| - 1]), steps[|steps| - 1])
  }

  function Free(): State {
    State(0, false, None, [], 0, 0)
  }

  // --- Counting holders ---

  function Holders(tasks: seq<Pc>, kind: Kind): nat {
    if tasks == [] then 0 else Holders(tasks[..|tasks| - 1], kind) + if Holds(tasks[|tasks| - 1], kind) then 1 else 0
  }

  lemma {:induction false} HoldersUpdate(tasks: seq<Pc>, t: nat, pc: Pc, kind: Kind)
    requires t < |tasks|
    ensures Holders(tasks[t := pc], kind) ==
            Holders(tasks, kind) - (if Holds(tasks[t], kind) then 1 else 0) + if Holds(pc, kind) then 1 else 0
  {
    var n := |tasks| - 1;
    if t == n {
      assert tasks[t := pc][..n] == tasks[..n];
    } else {
      HoldersUpdate(tasks[..n], t, pc, kind);
      assert tasks[t := pc][..n] == tasks[..n][t := pc];
    }
  }

  lemma {:induction false} HoldersWoken(tasks: seq<Pc>, kind: Kind)
    ensures Holders(Woken(tasks), kind) == Holders(tasks, kind)
  {
    if tasks != [] {
      var n := |tasks| - 1;
      HoldersWoken(tasks[..n], kind);
      assert Woken(tasks)[..n] == Woken(tasks[..n]);
    }
  }

  lemma {:induction false} HolderCounts(tasks: seq<Pc>, t: nat, kind: Kind)
    requires t < |tasks| && Holds(tasks[t], kind)
    ensures Holders(tasks, kind) >= 1
  {
    if t < |tasks| - 1 {
      HolderCounts(tasks[..|tasks| - 1], t, kind);
    }
  }

  lemma {:induction false} TwoHoldersCount(tasks: seq<Pc>, t: nat, u: nat, kind: Kind)
    requires t < u < |tasks| && Holds(tasks[t], kind) && Holds(tasks[u], kind)
    ensures Holders(tasks, kind) >= 2
  {
    var n := |tasks| - 1;
    if u < n {
      TwoHoldersCount(tasks[..n], t, u, kind);
    } else {
      HolderCounts(tasks[..n], t, kind);
    }
  }

  lemma {:induction false} SomeHolder(tasks: seq<Pc>, kind: Kind) returns (t: nat)
    requires Holders(tasks, kind) >= 1
    ensures t < |tasks| && Holds(tasks[t], kind)
  {
    var n := |tasks| - 1;
    if Holds(tasks[n], kind) {
      t := n;
    } else {
      t := SomeHolder(tasks[..n], kind);
    }
  }

  // --- The invariant ---

  /** The stored counts tell who holds the lock. */
  predicate CountsExact(s: State) {
    s.readers == Holders(s.tasks, Read) && Holders(s.tasks, Write) == if s.writer then 1 else 0
  }

  /** The stored counts tell who holds the lock or has leaked it, and a writer is alone. */
  predicate CountsAddUp(s: State) {
    s.readers == Holders(s.tasks, Read) + s.leakedReads &&
    Holders(s.tasks, Write) + s.leakedWrites == (if s.writer then 1 else 0) && (s.writer ==> s.readers == 0)
  }

  predicate MutexExact(mutex: Option<nat>, tasks: seq<Pc>) {
    forall t :: 0 <= t < |tasks| ==> (InMutex(tasks[t]) <==> mutex == Some(t))
  }

  /** No task is parked while its wait condition holds. */
  predicate NoLostWakeup(s: State) {
    forall t :: 0 <= t < |s.tasks| && s.tasks[t].Parked? ==> !MayPass(s.readers, s.writer, s.tasks[t].kind)
  }

  predicate LockInv(s: State) {
    CountsAddUp(s) && MutexExact(s.mutex, s.tasks) && NoLostWakeup(s) && (s.mutex.Some? ==> s.mutex.value < |s.tasks|)
  }

  lemma StageKeepsInv(s: State, t: nat, pc: Pc, mutex: Option<nat>)
    requires LockInv(s) && t < |s.tasks| && (mutex.Some? ==> mutex.value < |s.tasks|)
    requires forall kind :: Holds(pc, kind) == Holds(s.tasks[t], kind)
    requires pc.Parked? ==> !MayPass(s.readers, s.writer, pc.kind)
    requires MutexExact(mutex, s.tasks[t := pc])
    ensures LockInv(s.(mutex := mutex, tasks := s.tasks[t := pc]))
  {
    HoldersUpdate(s.tasks, t, pc, Read);
    HoldersUpdate(s.tasks, t, pc, Write);
  }

  lemma TestKeepsInv(s: State, t: nat)
    requires LockInv(s) && t < |s.tasks| && s.tasks[t].Testing?
    ensures LockInv(Tested(s, t))
  {
    var kind := s.tasks[t].kind;
    HoldersUpdate(s.tasks, t, Holding(kind), Read);
    HoldersUpdate(s.tasks, t, Holding(kind), Write);
    HoldersUpdate(s.tasks, t, Parked(kind), Read);
    HoldersUpdate(s.tasks, t, Parked(kind), Write);
  }

  lemma LeaveKeepsInv(s: State, t: nat)
    requires LockInv(s) && t < |s.tasks| && s.tasks[t].Updating?
    ensures LockInv(Left(s, t))
  {
    var tasks := s.tasks[t := Idle];
    HoldersUpdate(s.tasks, t, Idle, Read);
    HoldersUpdate(s.tasks, t, Idle, Write);
    HoldersWoken(tasks, Read);
    HoldersWoken(tasks, Write);
    HolderCounts(s.tasks, t, s.tasks[t].kind);
  }

  lemma LeakKeepsInv(s: State, t: nat)
    requires LockInv(s) && t < |s.tasks| && s.tasks[t].Leaving?
    ensures LockInv(Leaked(s, t))
  {
    HoldersUpdate(s.tasks, t, Idle, Read);
    HoldersUpdate(s.tasks, t, Idle, Write);
  }

  lemma TakingKeepsInv(s: State, t: nat)
    requires LockInv(s) && t < |s.tasks| && WantsMutex(s.tasks[t]) && s.mutex.None?
    ensures LockInv(Apply(s, TakeMutex(t)))
  {
    StageKeepsInv(s, t, Apply(s, TakeMutex(t)).tasks[t], Some(t));
  }

  lemma StepKeepsLockInv(s: State, step: Step)
    requires LockInv(s)
    ensures LockInv(Apply(s, step))
  {
    match step
    case Arrive => assert (s.tasks + [Idle])[..|s.tasks|] == s.tasks;
    case Request(t, kind) => if Is(s, t) && s.tasks[t].Idle? { StageKeepsInv(s, t, Entering(kind), s.mutex); }
    case TakeMutex(t) => if Is(s, t) && WantsMutex(s.tasks[t]) && s.mutex.None? { TakingKeepsInv(s, t); }
    case Test(t) => if Is(s, t) && s.tasks[t].Testing? { TestKeepsInv(s, t); }
    case Finish(t) => if Is(s, t) && s.tasks[t].Holding? { StageKeepsInv(s, t, Leaving(s.tasks[t].kind), s.mutex); }
    case Leave(t) => if Is(s, t) && s.tasks[t].Updating? { LeaveKeepsInv(s, t); }
    case Cancel(t) =>
      if Is(s, t) && (s.tasks[t].Entering? || s.tasks[t].Parked? || s.tasks[t].Notified?) {
        StageKeepsInv(s, t, Idle, s.mutex);
      }
    case CancelLeaving(t) => if Is(s, t) && s.tasks[t].Leaving? { LeakKeepsInv(s, t); }
  }

  /** In every run of any number of tasks, cancellations included, the counts add up, the mutex is
      exclusive and no wake-up is lost. */
  lemma {:induction false} RunKeepsLockInv(steps: seq<Step>)
    ensures LockInv(Run(Free(), steps))
  {
    if steps != [] {
      var n := |steps| - 1;
      RunKeepsLockInv(steps[..n]);
      StepKeepsLockInv(Run(Free(), steps[..n]), steps[n]);
    }
  }

  /** No step of the run cancels a task that is giving the lock back. */
  predicate NoneLeaked(steps: seq<Step>) {
    steps == [] ||
    (NoneLeaked(steps[..|steps| - 1]) &&
     var s, step := Run(Free(), steps[..|steps| - 1]), steps[|steps| - 1];
     !(step.CancelLeaving? && Is(s, step.t) && s.tasks[step.t].Leaving?))
  }

  lemma {:induction false} LeaksCounted(steps: seq<Step>)
    ensures NoneLeaked(steps) <==> Run(Free(), steps).leakedReads + Run(Free(), steps).leakedWrites == 0
  {
    if steps != [] {
      LeaksCounted(steps[..|steps| - 1]);
    }
  }

  /** The counts are exact after a run if and only if no task was cancelled while it waited to give the
      lock back: a leak is never made up for. */
  lemma CountsExactIff(steps: seq<Step>)
    ensures CountsExact(Run(Free(), steps)) <==> NoneLeaked(steps)
  {
    RunKeepsLockInv(steps);
    LeaksCounted(steps);
  }

  lemma LeaksStay(s: State, step: Step)
    ensures Apply(s, step).leakedReads >= s.leakedReads && Apply(s, step).leakedWrites >= s.leakedWrites
  {
  }

  lemma {:induction false} RunFromInv(s: State, steps: seq<Step>)
    requires LockInv(s)
    ensures LockInv(Run(s, steps)) && Run(s, steps).leakedReads >= s.leakedReads &&
            Run(s, steps).leakedWrites >= s.leakedWrites
  {
    if steps != [] {
      var n := |steps| - 1;
      RunFromInv(s, steps[..n]);
      StepKeepsLockInv(Run(s, steps[..n]), steps[n]);
      LeaksStay(Run(s, steps[..n]), steps[n]);
    }
  }

  /** After a leaked write nobody ever holds the lock again; after a leaked read no writer does. */
  lemma {:induction false} LeakBlocksForever(s: State, steps: seq<Step>)
    requires LockInv(s)
    ensures s.leakedWrites > 0 ==> Holders(Run(s, steps).tasks, Read) == 0 && Holders(Run(s, steps).tasks, Write) == 0
    ensures s.leakedReads > 0 ==> Holders(Run(s, steps).tasks, Write) == 0
  {
    RunFromInv(s, steps);
  }

  /** A writer excludes readers and other writers. */
  lemma WriterExcludes(steps: seq<Step>, t: nat, u: nat)
    requires var tasks := Run(Free(), steps).tasks;
             t < u < |tasks| && (Holds(tasks[t], Read) || Holds(tasks[t], Write)) &&
             (Holds(tasks[u], Read) || Holds(tasks[u], Write))
    ensures var tasks := Run(Free(), steps).tasks; Holds(tasks[t], Read) && Holds(tasks[u], Read)
  {
    RunKeepsLockInv(steps);
    var s := Run(Free(), steps);
    HolderCounts(s.tasks, t, s.tasks[t].kind);
    HolderCounts(s.tasks, u, s.tasks[u].kind);
    if s.tasks[t].kind == s.tasks[u].kind {
      TwoHoldersCount(s.tasks, t, u, s.tasks[t].kind);
    }
  }

  /** Without leaks a parked task always waits for somebody: a reader for a writer, a writer for a holder. */
  lemma ParkedWaitsForHolder(s: State, t: nat) returns (u: nat)
    requires LockInv(s) && s.leakedReads + s.leakedWrites == 0 && t < |s.tasks| && s.tasks[t].Parked?
    ensures u < |s.tasks| && !s.tasks[u].Parked?
    ensures Holds(s.tasks[u], Write) || (s.tasks[t].kind.Write? && Holds(s.tasks[u], Read))
  {
    if s.writer {
      u := SomeHolder(s.tasks, Write);
    } else {
      u := SomeHolder(s.tasks, Read);
    }
  }

  /** Some task other than `t` holds the lock as `kind`. */
  predicate OtherHolds(tasks: seq<Pc>, t: nat, kind: Kind) {
    exists u :: 0 <= u < |tasks| && u != t && Holds(tasks[u], kind)
  }

  lemma TestDecides(s: State, t: nat)
    requires LockInv(s) && s.leakedReads + s.leakedWrites == 0 && t < |s.tasks| && s.tasks[t].Testing?
    ensures var after := Tested(s, t).tasks[t];
            (after == Holding(s.tasks[t].kind) || after == Parked(s.tasks[t].kind)) &&
            (after.Holding? <==>
              Holders(s.tasks, Write) == 0 && (s.tasks[t].kind.Write? ==> Holders(s.tasks, Read) == 0))
  {
  }

  /** Without leaks, a task that tests passes if and only if it may: readers beside readers, a writer
      beside nobody. */
  lemma PassesIff(steps: seq<Step>, t: nat)
    requires NoneLeaked(steps) && t < |Run(Free(), steps).tasks| && Run(Free(), steps).tasks[t].Testing?
    ensures var s := Run(Free(), steps);
            var after := Apply(s, Test(t)).tasks[t];
            (after == Holding(s.tasks[t].kind) || after == Parked(s.tasks[t].kind)) &&
            (after.Holding? <==>
              !OtherHolds(s.tasks, t, Write) && (s.tasks[t].kind.Write? ==> !OtherHolds(s.tasks, t, Read)))
  {
    var s := Run(Free(), steps);
    RunKeepsLockInv(steps);
    LeaksCounted(steps);
    TestDecides(s, t);
    HeldByOther(s.tasks, t, Read);
    HeldByOther(s.tasks, t, Write);
  }

  lemma HeldByOther(tasks: seq<Pc>, t: nat, kind: Kind)
    requires t < |tasks| && !Holds(tasks[t], kind)
    ensures OtherHolds(tasks, t, kind) <==> Holders(tasks, kind) >= 1
  {
    if OtherHolds(tasks, t, kind) {
      var u :| 0 <= u < |tasks| && u != t && Holds(tasks[u], kind);
      HolderCounts(tasks, u, kind);
    }
    if Holders(tasks, kind) >= 1 {
      var u := SomeHolder(tasks, kind);
    }
  }

  /** Without leaks, a task that has given the lock back is idle, and the parked tasks are woken if and
      only if nobody holds the lock any more; nobody else moves. */
  lemma LeavingWakesIff(steps: seq<Step>, t: nat, u: nat)
    requires NoneLeaked(steps) && t < |Run(Free(), steps).tasks| && Run(Free(), steps).tasks[t].Updating?
    requires u < |Run(Free(), steps).tasks| && u != t
    ensures var s := Run(Free(), steps);
            var after := Apply(s, Leave(t));
            after.tasks[t].Idle? && after.mutex.None? &&
            after.tasks[u] ==
            if s.tasks[u].Parked? && !OtherHolds(s.tasks, t, Read) && !OtherHolds(s.tasks, t, Write)
            then Notified(s.tasks[u].kind) else s.tasks[u]
  {
    var s := Run(Free(), steps);
    RunKeepsLockInv(steps);
    LeaksCounted(steps);
    LastHolder(s, t);
  }

  /** The leaving task is the last holder exactly if it writes or is the one reader counted. */
  lemma LastHolder(s: State, t: nat)
    requires LockInv(s) && s.leakedReads + s.leakedWrites == 0 && t < |s.tasks| && s.tasks[t].Updating?
    ensures !OtherHolds(s.tasks, t, Read) && !OtherHolds(s.tasks, t, Write) <==>
            s.tasks[t].kind.Write? || s.readers == 1
  {
    var tasks := s.tasks[t := Idle];
    HoldersUpdate(s.tasks, t, Idle, Read);
    HoldersUpdate(s.tasks, t, Idle, Write);
    HolderCounts(s.tasks, t, s.tasks[t].kind);
    HeldByOther(tasks, t, Read);
    HeldByOther(tasks, t, Write);
    SameOthers(s.tasks, t, Read);
    SameOthers(s.tasks, t, Write);
  }

  lemma SameOthers(tasks: seq<Pc>, t: nat, kind: Kind)
    requires t < |tasks|
    ensures OtherHolds(tasks[t := Idle], t, kind) <==> OtherHolds(tasks, t, kind)
  {
    if OtherHolds(tasks, t, kind) {
      var u :| 0 <= u < |tasks| && u != t && Holds(tasks[u], kind);
      assert tasks[t := Idle][u] == tasks[u];
    }
  }

  /** A task that goes away while it waits to give the lock back is idle, and its count stays. */
  lemma LeakKeepsCount(s: State, t: nat)
    requires t < |s.tasks| && s.tasks[t].Leaving?
    ensures var after := Apply(s, CancelLeaving(t));
            after.tasks == s.tasks[t := Idle] && after.readers == s.readers && after.writer == s.writer &&
            after.leakedReads + after.leakedWrites == s.leakedReads + s.leakedWrites + 1
  {
  }

  /** No deadlock: without leaks, while a task is not idle, some task can take a step of its own. */
  lemma NoDeadlock(s: State, t: nat) returns (step: Step)
    requires LockInv(s) && s.leakedReads + s.leakedWrites == 0 && t < |s.tasks| && !s.tasks[t].Idle?
    ensures Apply(s, step) != s && (step.TakeMutex? || step.Test? || step.Finish? || step.Leave?)
  {
    var u := t;
    if s.tasks[t].Parked? {
      u := ParkedWaitsForHolder(s, t);
    }
    if s.tasks[u].Holding? {
      return Finish(u);
    }
    if s.mutex.Some? {
      u := s.mutex.value;
    }
    step := if s.tasks[u].Testing? then Test(u) else if s.tasks[u].Updating? then Leave(u) else TakeMutex(u);
  }

  // --- One task on its own ---

  predicate AllIdle(tasks: seq<Pc>) {
    forall t :: 0 <= t < |tasks| ==> tasks[t].Idle?
  }

  lemma {:induction false} RunAppends(s: State, steps: seq<Step>, step: Step)
    ensures Run(s, steps + [step]) == Apply(Run(s, steps), step)
  {
    assert (steps + [step])[..|steps|] == steps;
  }

  lemma RunsFour(s: State, a: Step, b: Step, c: Step, d: Step)
    ensures Run(s, [a, b, c, d]) == Apply(Apply(Apply(Apply(s, a), b), c), d)
  {
    assert Run(s, []) == s;
    RunAppends(s, [], a);
    RunAppends(s, [a], b);
    RunAppends(s, [a, b], c);
    RunAppends(s, [a, b, c], d);
    assert [] + [a] == [a] && [a] + [b] == [a, b] && [a, b] + [c] == [a, b, c] && [a, b, c] + [d] == [a, b, c, d];
  }

  /** A new task that finds the lock empty gets it with its next steps, alone in the counts. */
  lemma LoneTaskPasses(s: State, kind: Kind)
    requires AllIdle(s.tasks) && s.mutex.None? && s.readers == 0 && !s.writer
    ensures var t := |s.tasks|;
            Run(s, [Arrive, Request(t, kind), TakeMutex(t), Test(t)]) ==
            s.(tasks := s.tasks + [Holding(kind)], readers := if kind.Read? then 1 else 0, writer := kind.Write?)
  {
    var t := |s.tasks|;
    RunsFour(s, Arrive, Request(t, kind), TakeMutex(t), Test(t));
    var testing := s.(tasks := s.tasks + [Testing(kind)], mutex := Some(t));
    assert (s.tasks + [Entering(kind)])[t := Testing(kind)] == s.tasks + [Testing(kind)];
    assert (s.tasks + [Idle])[t := Entering(kind)] == s.tasks + [Entering(kind)];
    assert Apply(Apply(Apply(s, Arrive), Request(t, kind)), TakeMutex(t)) == testing;
    assert testing.tasks[t := Holding(kind)] == s.tasks + [Holding(kind)];
  }

  /** A task that is cancelled while it waits to enter is idle again, and nothing else changes. */
  lemma WaitingTaskGoes(s: State, t: nat)
    requires t < |s.tasks| && (s.tasks[t].Entering? || s.tasks[t].Parked? || s.tasks[t].Notified?)
    ensures Apply(s, Cancel(t)) == s.(tasks := s.tasks[t := Idle])
  {
  }

  // --- The lock object ---

  /** Each method is what task `t` does, in state `s`, between taking and giving back the mutex. */
  class AsyncReadWriteLock {
    var readers: int
    var writer: bool

    constructor ()
      ensures readers == 0 && !writer
    {
      readers, writer := 0, false;
    }

    /** Whether `t` passes; it parks otherwise. */
    method Enter(kind: Kind, ghost s: State, ghost t: nat) returns (passed: bool)
      requires t < |s.tasks| && s.tasks[t] == Testing(kind) && s.readers == readers && s.writer == writer
      modifies this
      ensures readers == Tested(s, t).readers && writer == Tested(s, t).writer
      ensures Tested(s, t).tasks[t] == if passed then Holding(kind) else Parked(kind)
      ensures passed <==> !old(writer) && (kind.Read? || old(readers) == 0)
      ensures readers == old(readers) + (if passed && kind.Read? then 1 else 0)
      ensures writer == (old(writer) || (passed && kind.Write?))
    {
      passed := !writer && (kind.Read? || readers == 0);
      if passed {
        if kind.Read? {
          readers := readers + 1;
        } else {
          writer := true;
        }
      }
    }

    /** Whether the parked tasks are notified. */
    method Exit(kind: Kind, ghost s: State, ghost t: nat) returns (notified: bool)
      requires t < |s.tasks| && s.tasks[t] == Updating(kind) && s.readers == readers && s.writer == writer
      modifies this
      ensures readers == Left(s, t).readers && writer == Left(s, t).writer
      ensures Left(s, t).tasks == if notified then Woken(s.tasks[t := Idle]) else s.tasks[t := Idle]
      ensures readers == old(readers) - (if kind.Read? then 1 else 0)
      ensures writer == (old(writer) && kind.Read?) && (notified <==> kind.Write? || readers == 0)
    {
      if kind.Read? {
        readers := readers - 1;
        notified := readers == 0;
      } else {
        writer := false;
        notified := true;
      }
    }
  }
}
