/**
Level-1 fork and join.  The master (thread 0) publishes a micro task, toggles new_task and joins in; the slaves
wait for new_task, run the task and meet the master in the level-1 barrier, which also drains the task pool.
Every shared access and every lock operation is one step; a wait on a condition variable releases its lock and
falls asleep in one step, and may wake for no reason.  Forks are numbered from 1, entry 0 stands for NULL.
*/
module ForkJoin {
  import opened Counting

  /** The master from the join of one region to the fork of the next. */
  datatype BetweenPc = ResetExit | ResetCount | Serial | SetEntry(i: nat) | ForkLock | Toggle

  /** A slave waiting for the next region. */
  datatype WaitPc = SpinNew | LockNew | CheckNew | CommitNew | SleepNew | WokenNew | UnlockNew | Flip

  /** Entering a region, up to its barrier: master, slaves, both. */
  datatype EnterPc = Broadcast | ForkUnlock | ReadEntry | ClearEntry | Work(micro: nat) | Arrive

  datatype BarrierPc = CheckCount | CheckPending | Drain | ExitInc

  /** The master waiting for the slaves to leave the barrier. */
  datatype LeavePc = SpinExit | LockExit | CheckExit | CommitExit | SleepExit | WokenExit | UnlockExit

  /** The last slave to leave. */
  datatype ClosePc = LockSignal | Signal | UnlockSignal

  datatype Pc =
    | Between(between: BetweenPc) | Wait(wait: WaitPc) | Enter(enter: EnterPc)
    | Barrier(barrier: BarrierPc) | Leave(leave: LeavePc) | Close(close: ClosePc)

  /**
  `taskExpect` is the slave's local flag and `running` how many tasks are on the thread's stack.  `seen` counts the
  regions entered and `ran` lists the micro tasks run; both are for the proof only.
  */
  datatype Thread = Thread(pc: Pc, taskExpect: bool, running: nat, seen: nat, ran: seq<nat>)

  /** `closer` is the last slave that found itself last out; it is for the proof only. */
  datatype State = State(
    newTask: bool, entry: seq<nat>, barCount: int, exitCount: int, pending: int, queued: nat,
    newLock: int, exitLock: int, threads: seq<Thread>, closer: nat)

  /** `Patient` is giving up spinning, `Wake` a spurious wakeup. */
  datatype Action =
    | Step(t: nat) | Patient(t: nat) | Wake(t: nat)
    | SpawnTask(t: nat) | TakeTask(t: nat) | FinishTask(t: nat)

  predicate Shape(s: State) {
    |s.threads| >= 2 && |s.entry| == |s.threads|
  }

  predicate Init(s: State) {
    && Shape(s) && !s.newTask && s.barCount == 0 && s.exitCount == 0 && s.pending == 0 && s.queued == 0
    && s.newLock == -1 && s.exitLock == -1
    && forall t :: 0 <= t < |s.threads| ==>
         s.threads[t] == Thread(if t == 0 then Between(Serial) else Wait(SpinNew), true, 0, 0, [])
  }

  function Goto(s: State, t: nat, pc: Pc): State
    requires t < |s.threads|
  {
    s.(threads := s.threads[t := s.threads[t].(pc := pc)])
  }

  /** What a broadcast on the fork condition does to a thread. */
  function WakeNew(th: Thread): Thread {
    if th.pc == Wait(SleepNew) then th.(pc := Wait(WokenNew)) else th
  }

  function WakeAll(threads: seq<Thread>): (r: seq<Thread>)
    ensures |r| == |threads| && forall t :: 0 <= t < |r| ==> r[t] == WakeNew(threads[t])
  {
    seq(|threads|, t requires 0 <= t < |threads| => WakeNew(threads[t]))
  }

  function WakeMaster(threads: seq<Thread>): seq<Thread>
    requires threads != []
  {
    if threads[0].pc == Leave(SleepExit) then threads[0 := threads[0].(pc := Leave(WokenExit))] else threads
  }

  /** The end of the join and the fork, on the master. */
  function StepBetween(s: State, t: nat, pc: BetweenPc): (r: State)
    requires Shape(s) && t < |s.threads|
    ensures Shape(r) && |r.threads| == |s.threads|
  {
    var th := s.threads[t];
    match pc
    case ResetExit => Goto(s, t, Between(ResetCount)).(exitCount := 0)
    case ResetCount => Goto(s, t, Between(Serial)).(barCount := 0)
    case Serial => Goto(s, t, Between(SetEntry(0)))
    case SetEntry(i) =>
      if i < |s.threads| then Goto(s, t, Between(SetEntry(i + 1))).(entry := s.entry[i := th.seen + 1])
      else Goto(s, t, Between(ForkLock))
    case ForkLock => if s.newLock == -1 then Goto(s, t, Between(Toggle)).(newLock := t) else s
    case Toggle => s.(newTask := !s.newTask,
        threads := s.threads[t := th.(pc := Enter(Broadcast), seen := th.seen + 1)])
  }

  function StepWait(s: State, t: nat, pc: WaitPc): (r: State)
    requires Shape(s) && t < |s.threads|
    ensures Shape(r) && |r.threads| == |s.threads|
  {
    var th := s.threads[t];
    match pc
    case SpinNew => if s.newTask == th.taskExpect then Goto(s, t, Wait(Flip)) else s
    case LockNew => if s.newLock == -1 then Goto(s, t, Wait(CheckNew)).(newLock := t) else s
    case CheckNew => Goto(s, t, Wait(if s.newTask == th.taskExpect then UnlockNew else CommitNew))
    case CommitNew => Goto(s, t, Wait(SleepNew)).(newLock := -1)
    case SleepNew => s
    case WokenNew => if s.newLock == -1 then Goto(s, t, Wait(CheckNew)).(newLock := t) else s
    case UnlockNew => Goto(s, t, Wait(SpinNew)).(newLock := -1)
    case Flip =>
      s.(threads := s.threads[t := th.(pc := Enter(ReadEntry), taskExpect := !th.taskExpect, seen := th.seen + 1)])
  }

  /** From the fork to the barrier; the micro task itself is the stay at `Work`, and it has run when that is over. */
  function StepEnter(s: State, t: nat, pc: EnterPc): (r: State)
    requires Shape(s) && t < |s.threads|
    ensures Shape(r) && |r.threads| == |s.threads|
  {
    var th := s.threads[t];
    match pc
    case Broadcast => s.(threads := WakeAll(s.threads)[t := th.(pc := Enter(ForkUnlock))])
    case ForkUnlock => Goto(s, t, Enter(Work(th.seen))).(newLock := -1)
    case ReadEntry =>
      if s.entry[t] != 0 then Goto(s, t, Enter(Work(s.entry[t]))) else Goto(s, t, Wait(SpinNew))
    case Work(micro) =>
      s.(threads := s.threads[t := th.(pc := Enter(if t == 0 then Arrive else ClearEntry), ran := th.ran + [micro])])
    case ClearEntry => Goto(s, t, Enter(Arrive)).(entry := s.entry[t := 0])
    case Arrive => Goto(s, t, Barrier(CheckCount)).(barCount := s.barCount + 1)
  }

  function StepBarrier(s: State, t: nat, pc: BarrierPc): (r: State)
    requires Shape(s) && t < |s.threads|
    ensures Shape(r) && |r.threads| == |s.threads|
  {
    match pc
    case CheckCount => Goto(s, t, Barrier(if s.barCount < |s.threads| then Drain else CheckPending))
    case CheckPending => Goto(s, t, Barrier(if s.pending != 0 then Drain else ExitInc))
    case Drain => if s.pending != 0 then s else Goto(s, t, Barrier(CheckCount))
    case ExitInc =>
      var last := s.exitCount + 1 == |s.threads|;
      var pc' :=
        if t == 0 then (if last then Between(ResetExit) else Leave(SpinExit))
        else if last then Close(LockSignal) else Wait(SpinNew);
      Goto(s, t, pc').(exitCount := s.exitCount + 1, closer := if last then t else s.closer)
  }

  function StepLeave(s: State, t: nat, pc: LeavePc): (r: State)
    requires Shape(s) && t < |s.threads|
    ensures Shape(r) && |r.threads| == |s.threads|
  {
    match pc
    case SpinExit => if s.exitCount == |s.threads| then Goto(s, t, Between(ResetExit)) else s
    case LockExit => if s.exitLock == -1 then Goto(s, t, Leave(CheckExit)).(exitLock := t) else s
    case CheckExit => Goto(s, t, Leave(if s.exitCount == |s.threads| then UnlockExit else CommitExit))
    case CommitExit => Goto(s, t, Leave(SleepExit)).(exitLock := -1)
    case SleepExit => s
    case WokenExit => if s.exitLock == -1 then Goto(s, t, Leave(CheckExit)).(exitLock := t) else s
    case UnlockExit => Goto(s, t, Leave(SpinExit)).(exitLock := -1)
  }

  function StepClose(s: State, t: nat, pc: ClosePc): (r: State)
    requires Shape(s) && t < |s.threads|
    ensures Shape(r) && |r.threads| == |s.threads|
  {
    match pc
    case LockSignal => if s.exitLock == -1 then Goto(s, t, Close(Signal)).(exitLock := t) else s
    case Signal => s.(threads := WakeMaster(s.threads)[t := s.threads[t].(pc := Close(UnlockSignal))])
    case UnlockSignal => Goto(s, t, Wait(SpinNew)).(exitLock := -1)
  }

  function StepThread(s: State, t: nat): (r: State)
    requires Shape(s) && t < |s.threads|
    ensures Shape(r) && |r.threads| == |s.threads|
  {
    match s.threads[t].pc
    case Between(pc) => StepBetween(s, t, pc)
    case Wait(pc) => StepWait(s, t, pc)
    case Enter(pc) => StepEnter(s, t, pc)
    case Barrier(pc) => StepBarrier(s, t, pc)
    case Leave(pc) => StepLeave(s, t, pc)
    case Close(pc) => StepClose(s, t, pc)
  }

  predicate InMicroTask(pc: Pc) {
    pc.Enter? && pc.enter.Work?
  }

  predicate HelpsWithTasks(pc: Pc) {
    InMicroTask(pc) || pc == Barrier(Drain)
  }

  /** A task may be created by the micro task or by a task; a thread takes tasks while it works or drains. */
  function Next(s: State, a: Action): (r: State)
    requires Shape(s)
    ensures Shape(r) && |r.threads| == |s.threads|
  {
    if a.t >= |s.threads| then s
    else
      var (t, th) := (a.t, s.threads[a.t]);
      match a
      case Step(_) => if th.running > 0 then s else StepThread(s, t)
      case Patient(_) =>
        if th.pc == Wait(SpinNew) then Goto(s, t, Wait(LockNew))
        else if th.pc == Leave(SpinExit) then Goto(s, t, Leave(LockExit)) else s
      case Wake(_) =>
        if th.pc == Wait(SleepNew) then Goto(s, t, Wait(WokenNew))
        else if th.pc == Leave(SleepExit) then Goto(s, t, Leave(WokenExit)) else s
      case SpawnTask(_) =>
        if InMicroTask(th.pc) || th.running > 0 then s.(pending := s.pending + 1, queued := s.queued + 1) else s
      case TakeTask(_) =>
        if HelpsWithTasks(th.pc) && s.queued > 0 then
          s.(queued := s.queued - 1, threads := s.threads[t := th.(running := th.running + 1)])
        else s
      case FinishTask(_) =>
        if th.running > 0 then
          s.(pending := s.pending - 1, threads := s.threads[t := th.(running := th.running - 1)])
        else s
  }

  function Exec(s: State, schedule: seq<Action>): (r: State)
    requires Shape(s)
    ensures Shape(r) && |r.threads| == |s.threads|
    decreases |schedule|
  {
    if schedule == [] then s else Exec(Next(s, schedule[0]), schedule[1..])
  }

  // ---------- the invariant ----------

  /** The number of regions forked so far. */
  function Forks(s: State): nat
    requires Shape(s)
  {
    s.threads[0].seen
  }

  predicate IsMaster(pc: Pc) {
    pc.Between? || pc.Barrier? || pc.Leave? || (pc.Enter? && !pc.enter.ReadEntry? && !pc.enter.ClearEntry?)
  }

  predicate IsSlave(pc: Pc) {
    pc.Wait? || pc.Barrier? || pc.Close? || (pc.Enter? && !pc.enter.Broadcast? && !pc.enter.ForkUnlock?)
  }

  predicate HoldsNew(pc: Pc) {
    match pc
    case Between(p) => p.Toggle?
    case Wait(p) => p.CheckNew? || p.CommitNew? || p.UnlockNew?
    case Enter(p) => p.Broadcast? || p.ForkUnlock?
    case _ => false
  }

  predicate HoldsExit(pc: Pc) {
    match pc
    case Leave(p) => p.CheckExit? || p.CommitExit? || p.UnlockExit?
    case Close(p) => p.Signal? || p.UnlockSignal?
    case _ => false
  }

  /** In how many regions the thread has reached the barrier, and in how many it has left it. */
  function Arrived(th: Thread): int {
    if th.pc.Enter? then th.seen - 1 else th.seen
  }

  function Exited(th: Thread): int {
    if th.pc.Enter? || th.pc.Barrier? then th.seen - 1 else th.seen
  }

  predicate AllArrived(s: State)
    requires Shape(s)
  {
    forall t :: 0 <= t < |s.threads| ==> Arrived(s.threads[t]) == Forks(s)
  }

  function ArrivedSet(s: State): set<nat>
    requires Shape(s)
  {
    set t: nat | t < |s.threads| && Arrived(s.threads[t]) == Forks(s)
  }

  function ExitedSet(s: State): set<nat>
    requires Shape(s)
  {
    set t: nat | t < |s.threads| && Exited(s.threads[t]) == Forks(s)
  }

  function Running(threads: seq<Thread>): nat {
    if threads == [] then 0 else Running(threads[..|threads| - 1]) + threads[|threads| - 1].running
  }

  predicate Locks(s: State) {
    && (s.newLock == -1 || 0 <= s.newLock < |s.threads|) && (s.exitLock == -1 || 0 <= s.exitLock < |s.threads|)
    && forall t :: 0 <= t < |s.threads| ==>
         (HoldsNew(s.threads[t].pc) <==> s.newLock == t) && (HoldsExit(s.threads[t].pc) <==> s.exitLock == t)
  }

  /** Where a thread is, against where the master is. */
  predicate Place(s: State, t: nat)
    requires Shape(s) && t < |s.threads|
  {
    var (th, m) := (s.threads[t], s.threads[0].pc);
    && (if t == 0 then IsMaster(th.pc) else IsSlave(th.pc))
    && (th.running > 0 ==> HelpsWithTasks(th.pc))
    && (t > 0 ==>
          && th.seen <= Forks(s) <= th.seen + 1
          && th.taskExpect == (th.seen % 2 == 0)
          && (th.pc.Enter? || th.pc.Barrier? ==> th.seen == Forks(s))
          && (th.pc == Wait(Flip) || th.pc == Wait(UnlockNew) ==> Forks(s) == th.seen + 1)
          && (th.pc == Wait(CommitNew) ==> Forks(s) == th.seen)
          && (th.pc == Wait(SleepNew) ==> Forks(s) == th.seen || m == Enter(Broadcast)))
    && (m.Between? ==> Exited(th) == Forks(s))
  }

  /** What a thread that has got so far knows. */
  predicate Knows(s: State, t: nat)
    requires Shape(s) && t < |s.threads|
  {
    var th := s.threads[t];
    && (th.pc == Barrier(CheckPending) || th.pc == Barrier(ExitInc) || Exited(th) == Forks(s) ==> AllArrived(s))
    && (th.pc == Barrier(ExitInc) || Exited(th) == Forks(s) ==> s.pending == 0)
  }

  /** In a region already entered, with its micro task not yet run to the end. */
  predicate YetToRun(pc: Pc) {
    pc.Enter? && (pc.enter.ReadEntry? || pc.enter.Broadcast? || pc.enter.ForkUnlock? || pc.enter.Work?)
  }

  /** Between the micro task of a region and the fork of the next: a slave has put its entry back to NULL. */
  predicate EntryCleared(pc: Pc, m: Pc) {
    && (pc.Wait? || pc.Close? || pc.Barrier? || pc == Enter(Arrive))
    && (m.Between? ==> m.between.ResetExit? || m.between.ResetCount? || m.between.Serial?)
  }

  /** The micro tasks run are those of the regions entered, once each, and the next is in place. */
  predicate Micro(s: State, t: nat)
    requires Shape(s) && t < |s.threads|
  {
    var (th, m) := (s.threads[t], s.threads[0].pc);
    && |th.ran| == (if YetToRun(th.pc) then th.seen - 1 else th.seen)
    && (forall i :: 0 <= i < |th.ran| ==> th.ran[i] == i + 1)
    && (InMicroTask(th.pc) ==> th.pc.enter.micro == th.seen)
    && (t > 0 && 1 <= Forks(s) == th.seen && EntryCleared(th.pc, m) ==> s.entry[t] == 0)
    && (t > 0 && (Forks(s) == th.seen + 1 || th.pc == Enter(ReadEntry)) ==> s.entry[t] == Forks(s))
    && (m.Between? && ((m.between.SetEntry? && t < m.between.i) || m.between.ForkLock? || m.between.Toggle?) ==>
          s.entry[t] == Forks(s) + 1)
  }

  predicate Counts(s: State)
    requires Shape(s)
  {
    var m := s.threads[0].pc;
    && s.newTask == (Forks(s) % 2 == 1)
    && s.barCount == (if m.Between? && !m.between.ResetExit? && !m.between.ResetCount? then 0 else |ArrivedSet(s)|)
    && s.exitCount == (if m.Between? && !m.between.ResetExit? then 0 else |ExitedSet(s)|)
    && s.pending == s.queued + Running(s.threads)
  }

  /** A sleeping master that has nothing left to wait for is about to be signalled. */
  predicate Signalled(s: State)
    requires Shape(s)
  {
    s.exitCount == |s.threads| && (s.threads[0].pc == Leave(CommitExit) || s.threads[0].pc == Leave(SleepExit)) ==>
      0 < s.closer < |s.threads|
          && (s.threads[s.closer].pc == Close(LockSignal) || s.threads[s.closer].pc == Close(Signal))
  }

  predicate Inv(s: State) {
    && Shape(s) && Locks(s) && Counts(s) && Signalled(s)
    && (forall t :: 0 <= t < |s.threads| ==> Place(s, t) && Knows(s, t) && Micro(s, t))
  }

  lemma InitInv(s: State)
    requires Init(s)
    ensures Inv(s)
  {
    forall t | 0 <= t < |s.threads| ensures Place(s, t) && Knows(s, t) && Micro(s, t) {
      InitThread(s, t);
    }
    NobodyRuns(s.threads);
  }

  lemma InitThread(s: State, t: nat)
    requires Init(s) && t < |s.threads|
    ensures Place(s, t) && Knows(s, t) && Micro(s, t)
  {
  }

  // ---------- counting running tasks ----------

  lemma {:induction false} RunningUpdate(threads: seq<Thread>, t: nat, th: Thread)
    requires t < |threads|
    ensures Running(threads[t := th]) + threads[t].running == Running(threads) + th.running
  {
    var n := |threads| - 1;
    if t == n {
      assert threads[t := th][..n] == threads[..n];
    } else {
      assert threads[t := th][..n] == threads[..n][t := th];
      RunningUpdate(threads[..n], t, th);
    }
  }

  lemma {:induction false} NobodyRuns(threads: seq<Thread>)
    ensures (forall t :: 0 <= t < |threads| ==> threads[t].running == 0) ==> Running(threads) == 0
    ensures Running(threads) == 0 ==> forall t :: 0 <= t < |threads| ==> threads[t].running == 0
  {
    if threads == [] {
    } else {
      NobodyRuns(threads[..|threads| - 1]);
      forall t | 0 <= t < |threads| ensures Running(threads) == 0 ==> threads[t].running == 0 {
        assert t < |threads| - 1 ==> threads[..|threads| - 1][t] == threads[t];
      }
    }
  }

  /** The same tasks run, whatever happens to the program points. */
  lemma {:induction false} RunningSame(a: seq<Thread>, b: seq<Thread>)
    requires |a| == |b| && forall t :: 0 <= t < |a| ==> a[t].running == b[t].running
    ensures Running(a) == Running(b)
  {
    if a == [] {
    } else {
      RunningSame(a[..|a| - 1], b[..|b| - 1]);
    }
  }

  // ---------- one thread at a time ----------

  /** Thread t alone moves, and takes or releases the locks that go with its program point. */
  predicate Moves(s: State, r: State, t: nat) {
    && |r.threads| == |s.threads| && t < |s.threads|
    && (forall u :: 0 <= u < |s.threads| && u != t ==> r.threads[u] == s.threads[u])
    && var (pc, pc') := (s.threads[t].pc, r.threads[t].pc);
    && (HoldsNew(pc') && !HoldsNew(pc) ==> s.newLock == -1)
    && (HoldsExit(pc') && !HoldsExit(pc) ==> s.exitLock == -1)
    && r.newLock == (if HoldsNew(pc') then t else if HoldsNew(pc) then -1 else s.newLock)
    && r.exitLock == (if HoldsExit(pc') then t else if HoldsExit(pc) then -1 else s.exitLock)
  }

  lemma MovesLocks(s: State, r: State, t: nat)
    requires Locks(s) && Moves(s, r, t)
    ensures Locks(r)
  {
  }

  /** Threads that stand where they stood, in regions and at barriers. */
  predicate SameStanding(s: State, r: State)
    requires Shape(s)
  {
    && |r.threads| == |s.threads| && |r.entry| == |s.entry| && Forks(r) == Forks(s)
    && forall u :: 0 <= u < |s.threads| ==>
         Arrived(r.threads[u]) == Arrived(s.threads[u]) && Exited(r.threads[u]) == Exited(s.threads[u])
  }

  lemma StandingCounts(s: State, r: State)
    requires Shape(s) && SameStanding(s, r)
    ensures ArrivedSet(r) == ArrivedSet(s) && ExitedSet(r) == ExitedSet(s) && (AllArrived(r) <==> AllArrived(s))
  {
  }

  /** A thread that has not moved, with the master no nearer to the next region. */
  lemma OtherPlace(s: State, r: State, u: nat)
    requires Shape(s) && Shape(r) && u < |s.threads| && u < |r.threads| && Place(s, u)
    requires r.threads[u] == s.threads[u] && Forks(r) == Forks(s)
    requires var (m, m') := (s.threads[0].pc, r.threads[0].pc); (m'.Between? ==> m.Between?) && m != Enter(Broadcast)
    ensures Place(r, u)
  {
  }

  lemma OtherKnows(s: State, r: State, u: nat)
    requires Shape(s) && Shape(r) && u < |s.threads| && u < |r.threads| && Knows(s, u)
    requires r.threads[u] == s.threads[u] && Forks(r) == Forks(s)
    requires (AllArrived(s) ==> AllArrived(r)) && (s.pending == 0 ==> r.pending == 0)
    ensures Knows(r, u)
  {
  }

  lemma OtherMicro(s: State, r: State, u: nat)
    requires Shape(s) && Shape(r) && u < |s.threads| && u < |r.threads| && Micro(s, u)
    requires r.threads[u] == s.threads[u] && Forks(r) == Forks(s) && r.entry[u] == s.entry[u]
    requires r.threads[0].pc.Between? || s.threads[0].pc.Between? ==> r.threads[0].pc == s.threads[0].pc
    ensures Micro(r, u)
  {
  }

  /** Thread t moves on without changing its standing or any count. */
  predicate Stays(s: State, r: State, t: nat)
    requires Shape(s)
  {
    && Moves(s, r, t) && SameStanding(s, r)
    && r == s.(threads := r.threads, entry := r.entry, newLock := r.newLock, exitLock := r.exitLock)
    && r.threads[t].running == s.threads[t].running
    && (forall u :: 0 <= u < |s.threads| && u != t ==> r.entry[u] == s.entry[u])
    && !r.threads[t].pc.Between? && !s.threads[t].pc.Between? && s.threads[t].pc != Enter(Broadcast)
  }

  lemma StaysInv(s: State, r: State, t: nat)
    requires Inv(s) && Stays(s, r, t) && Place(r, t) && Knows(r, t) && Micro(r, t) && Signalled(r)
    ensures Inv(r)
  {
    MovesLocks(s, r, t);
    StandingCounts(s, r);
    RunningSame(s.threads, r.threads);
    forall u | 0 <= u < |r.threads| ensures Place(r, u) && Knows(r, u) && Micro(r, u) {
      if u != t { StaysOther(s, r, t, u); }
    }
  }

  lemma StaysOther(s: State, r: State, t: nat, u: nat)
    requires Inv(s) && Stays(s, r, t) && u < |s.threads| && u != t
    ensures Place(r, u) && Knows(r, u) && Micro(r, u)
  {
    assert Place(s, u) && Knows(s, u) && Micro(s, u);
    StandingCounts(s, r);
    if s.threads[0].pc != Enter(Broadcast) {
      OtherPlace(s, r, u);
    }
    OtherKnows(s, r, u);
    OtherMicro(s, r, u);
  }

  /** new_task is what a slave waits for exactly while there is a fork it has not seen. */
  lemma SeesFork(s: State, t: nat)
    requires Inv(s) && 0 < t < |s.threads|
    ensures s.newTask == s.threads[t].taskExpect <==> Forks(s) == s.threads[t].seen + 1
  {
    assert Place(s, t);
  }

  lemma WaitInv(s: State, t: nat, pc: WaitPc)
    requires Inv(s) && t < |s.threads| && s.threads[t].pc == Wait(pc)
    ensures Inv(StepWait(s, t, pc))
  {
    var r := StepWait(s, t, pc);
    assert Place(s, t);
    if r != s {
      WaitStays(s, t, pc);
      StandingCounts(s, r);
      WaitThread(s, t, pc);
      WaitSignalled(s, t, pc);
      StaysInv(s, r, t);
    }
  }

  lemma WaitThread(s: State, t: nat, pc: WaitPc)
    requires Inv(s) && 0 < t < |s.threads| && s.threads[t].pc == Wait(pc)
    requires AllArrived(StepWait(s, t, pc)) <==> AllArrived(s)
    ensures var r := StepWait(s, t, pc); Place(r, t) && Knows(r, t) && Micro(r, t)
  {
    WaitPlace(s, t, pc);
    assert Knows(s, t) && Micro(s, t) && Place(s, t);
    SeesFork(s, t);
  }

  lemma WaitPlace(s: State, t: nat, pc: WaitPc)
    requires Inv(s) && 0 < t < |s.threads| && s.threads[t].pc == Wait(pc)
    ensures Place(StepWait(s, t, pc), t)
  {
    assert Place(s, t);
    SeesFork(s, t);
  }

  lemma WaitSignalled(s: State, t: nat, pc: WaitPc)
    requires Inv(s) && 0 < t < |s.threads| && s.threads[t].pc == Wait(pc)
    ensures Signalled(StepWait(s, t, pc))
  {
  }

  lemma WaitStays(s: State, t: nat, pc: WaitPc)
    requires Shape(s) && Locks(s) && 0 < t < |s.threads| && s.threads[t].pc == Wait(pc) && StepWait(s, t, pc) != s
    ensures Stays(s, StepWait(s, t, pc), t)
  {
    match pc {
      case SpinNew => WaitMoveStays(s, t, pc);
      case CheckNew => WaitMoveStays(s, t, pc);
      case Flip => FlipStays(s, t);
      case _ => WaitLockStays(s, t, pc);
    }
  }

  lemma WaitMoveStays(s: State, t: nat, pc: WaitPc)
    requires Shape(s) && Locks(s) && 0 < t < |s.threads| && s.threads[t].pc == Wait(pc) && StepWait(s, t, pc) != s
    requires pc.SpinNew? || pc.CheckNew?
    ensures Stays(s, StepWait(s, t, pc), t)
  {
  }

  lemma FlipStays(s: State, t: nat)
    requires Shape(s) && Locks(s) && 0 < t < |s.threads| && s.threads[t].pc == Wait(Flip)
    ensures Stays(s, StepWait(s, t, Flip), t)
  {
  }

  lemma WaitLockStays(s: State, t: nat, pc: WaitPc)
    requires Shape(s) && Locks(s) && 0 < t < |s.threads| && s.threads[t].pc == Wait(pc) && StepWait(s, t, pc) != s
    requires pc.LockNew? || pc.CommitNew? || pc.WokenNew? || pc.UnlockNew?
    ensures Stays(s, StepWait(s, t, pc), t)
  {
  }

  /** barrier_count reaching the team size means everybody is in. */
  lemma AllInMeansAll(s: State)
    requires Inv(s) && s.barCount >= |s.threads| && !s.threads[0].pc.Between?
    ensures AllArrived(s)
  {
    forall u | 0 <= u < |s.threads| ensures Arrived(s.threads[u]) == Forks(s) {
      FullSet(ArrivedSet(s), |s.threads|, u);
      assert u in ArrivedSet(s);
    }
  }

  lemma BarrierStays(s: State, t: nat, pc: BarrierPc)
    requires Shape(s) && Locks(s) && t < |s.threads| && s.threads[t].pc == Barrier(pc) && !pc.ExitInc?
    requires StepBarrier(s, t, pc) != s
    ensures Stays(s, StepBarrier(s, t, pc), t)
  {
  }

  lemma BarrierInv(s: State, t: nat, pc: BarrierPc)
    requires Inv(s) && t < |s.threads| && s.threads[t].running == 0 && s.threads[t].pc == Barrier(pc) && !pc.ExitInc?
    ensures Inv(StepBarrier(s, t, pc))
  {
    var r := StepBarrier(s, t, pc);
    if r != s {
      BarrierStays(s, t, pc);
      StandingCounts(s, r);
      assert Place(s, t);
      if pc.CheckCount? && s.barCount >= |s.threads| {
        AllInMeansAll(s);
      }
      BarrierThread(s, t, pc);
      StaysInv(s, r, t);
    }
  }

  lemma BarrierThread(s: State, t: nat, pc: BarrierPc)
    requires Inv(s) && t < |s.threads| && s.threads[t].running == 0 && s.threads[t].pc == Barrier(pc) && !pc.ExitInc?
    requires pc.CheckCount? && s.barCount >= |s.threads| ==> AllArrived(s)
    requires AllArrived(StepBarrier(s, t, pc)) <==> AllArrived(s)
    ensures var r := StepBarrier(s, t, pc); Place(r, t) && Knows(r, t) && Micro(r, t) && Signalled(r)
  {
    assert Place(s, t) && Knows(s, t) && Micro(s, t);
  }

  lemma LeaveStays(s: State, t: nat, pc: LeavePc)
    requires Shape(s) && Locks(s) && t < |s.threads| && s.threads[t].pc == Leave(pc) && !pc.SpinExit?
    requires StepLeave(s, t, pc) != s
    ensures Stays(s, StepLeave(s, t, pc), t)
  {
  }

  lemma LeaveInv(s: State, t: nat, pc: LeavePc)
    requires Inv(s) && t < |s.threads| && s.threads[t].pc == Leave(pc) && !pc.SpinExit?
    ensures Inv(StepLeave(s, t, pc))
  {
    var r := StepLeave(s, t, pc);
    if r != s {
      LeaveStays(s, t, pc);
      StandingCounts(s, r);
      LeaveThread(s, t, pc);
      StaysInv(s, r, t);
    }
  }

  lemma LeaveThread(s: State, t: nat, pc: LeavePc)
    requires Inv(s) && t < |s.threads| && s.threads[t].pc == Leave(pc) && !pc.SpinExit?
    requires AllArrived(StepLeave(s, t, pc)) <==> AllArrived(s)
    ensures var r := StepLeave(s, t, pc); Place(r, t) && Knows(r, t) && Micro(r, t) && Signalled(r)
  {
    assert Place(s, t) && Knows(s, t) && Micro(s, t);
  }

  lemma CloseStays(s: State, t: nat, pc: ClosePc)
    requires Shape(s) && Locks(s) && t < |s.threads| && t > 0 && s.threads[t].pc == Close(pc) && !pc.Signal?
    requires StepClose(s, t, pc) != s
    ensures Stays(s, StepClose(s, t, pc), t)
  {
  }

  lemma CloseInv(s: State, t: nat, pc: ClosePc)
    requires Inv(s) && t < |s.threads| && s.threads[t].pc == Close(pc) && !pc.Signal?
    ensures Inv(StepClose(s, t, pc))
  {
    var r := StepClose(s, t, pc);
    assert Place(s, t);
    if r != s {
      CloseStays(s, t, pc);
      StandingCounts(s, r);
      CloseThread(s, t, pc);
      StaysInv(s, r, t);
    }
  }

  lemma CloseThread(s: State, t: nat, pc: ClosePc)
    requires Inv(s) && t < |s.threads| && s.threads[t].pc == Close(pc) && !pc.Signal?
    requires AllArrived(StepClose(s, t, pc)) <==> AllArrived(s)
    ensures var r := StepClose(s, t, pc); Place(r, t) && Knows(r, t) && Micro(r, t) && Signalled(r)
  {
    assert Place(s, t) && Knows(s, t) && Micro(s, t);
  }

  /** Giving up spinning, and waking up for no reason. */
  predicate QuietGoto(pc: Pc, pc': Pc) {
    || (pc == Wait(SpinNew) && pc' == Wait(LockNew))
    || (pc == Leave(SpinExit) && pc' == Leave(LockExit))
    || (pc == Wait(SleepNew) && pc' == Wait(WokenNew))
    || (pc == Leave(SleepExit) && pc' == Leave(WokenExit))
  }

  lemma QuietStays(s: State, t: nat, pc: Pc)
    requires Shape(s) && Locks(s) && t < |s.threads| && QuietGoto(s.threads[t].pc, pc)
    ensures Stays(s, Goto(s, t, pc), t)
  {
  }

  lemma QuietInv(s: State, t: nat, pc: Pc)
    requires Inv(s) && t < |s.threads| && QuietGoto(s.threads[t].pc, pc)
    ensures Inv(Goto(s, t, pc))
  {
    QuietStays(s, t, pc);
    StandingCounts(s, Goto(s, t, pc));
    QuietThread(s, t, pc);
    StaysInv(s, Goto(s, t, pc), t);
  }

  lemma QuietThread(s: State, t: nat, pc: Pc)
    requires Inv(s) && t < |s.threads| && QuietGoto(s.threads[t].pc, pc)
    requires AllArrived(Goto(s, t, pc)) <==> AllArrived(s)
    ensures var r := Goto(s, t, pc); Place(r, t) && Knows(r, t) && Micro(r, t) && Signalled(r)
  {
    assert Place(s, t) && Knows(s, t) && Micro(s, t);
  }

  lemma EnterStays(s: State, t: nat, pc: EnterPc)
    requires Shape(s) && Locks(s) && t < |s.threads| && s.threads[t].pc == Enter(pc) && !pc.Broadcast? && !pc.Arrive?
    requires pc.ReadEntry? ==> s.entry[t] != 0
    ensures Stays(s, StepEnter(s, t, pc), t)
  {
    if pc.ForkUnlock? || pc.ReadEntry? {
      RunStays(s, t, pc);
    } else {
      WorkStays(s, t, pc);
    }
  }

  lemma RunStays(s: State, t: nat, pc: EnterPc)
    requires Shape(s) && Locks(s) && t < |s.threads| && s.threads[t].pc == Enter(pc)
    requires (pc.ForkUnlock? || pc.ReadEntry?)
    requires pc.ReadEntry? ==> s.entry[t] != 0
    ensures Stays(s, StepEnter(s, t, pc), t)
  {
  }

  lemma WorkStays(s: State, t: nat, pc: EnterPc)
    requires Shape(s) && Locks(s) && t < |s.threads| && s.threads[t].pc == Enter(pc) && (pc.Work? || pc.ClearEntry?)
    ensures Stays(s, StepEnter(s, t, pc), t)
  {
  }

  lemma EnterInv(s: State, t: nat, pc: EnterPc)
    requires Inv(s) && t < |s.threads| && s.threads[t].running == 0 && s.threads[t].pc == Enter(pc)
    requires !pc.Broadcast? && !pc.Arrive?
    ensures Inv(StepEnter(s, t, pc))
  {
    var r := StepEnter(s, t, pc);
    assert Place(s, t) && Micro(s, t);
    EnterStays(s, t, pc);
    StandingCounts(s, r);
    EnterThread(s, t, pc);
    StaysInv(s, r, t);
  }

  lemma EnterThread(s: State, t: nat, pc: EnterPc)
    requires Inv(s) && t < |s.threads| && s.threads[t].running == 0 && s.threads[t].pc == Enter(pc)
    requires !pc.Broadcast? && !pc.Arrive? && (pc.ReadEntry? ==> s.entry[t] != 0)
    requires AllArrived(StepEnter(s, t, pc)) <==> AllArrived(s)
    ensures var r := StepEnter(s, t, pc); Place(r, t) && Knows(r, t) && Micro(r, t) && Signalled(r)
  {
    assert Place(s, t) && Knows(s, t) && Micro(s, t) && Place(s, 0);
  }

  // ---------- arriving and leaving ----------

  lemma ArriveInv(s: State, t: nat)
    requires Inv(s) && t < |s.threads| && s.threads[t].running == 0 && s.threads[t].pc == Enter(Arrive)
    ensures Inv(StepEnter(s, t, Arrive))
  {
    var r := StepEnter(s, t, Arrive);
    assert Place(s, t);
    ArriveMoves(s, t);
    MovesLocks(s, r, t);
    RunningSame(s.threads, r.threads);
    ArriveCounts(s, t);
    forall u | 0 <= u < |r.threads| ensures Place(r, u) && Knows(r, u) && Micro(r, u) {
      if u == t { ArriveOwn(s, t); } else { ArriveOther(s, t, u); }
    }
  }

  lemma ArriveMoves(s: State, t: nat)
    requires Shape(s) && Locks(s) && t < |s.threads| && s.threads[t].pc == Enter(Arrive)
    ensures var r := StepEnter(s, t, Arrive);
      Moves(s, r, t) && forall u :: 0 <= u < |s.threads| ==> r.threads[u].running == s.threads[u].running
  {
  }

  lemma ArriveOwn(s: State, t: nat)
    requires Inv(s) && t < |s.threads| && s.threads[t].running == 0 && s.threads[t].pc == Enter(Arrive)
    ensures var r := StepEnter(s, t, Arrive); Place(r, t) && Knows(r, t) && Micro(r, t)
  {
    assert Place(s, t) && Micro(s, t);
  }

  lemma ArriveCounts(s: State, t: nat)
    requires Inv(s) && t < |s.threads| && s.threads[t].pc == Enter(Arrive) && Place(s, t)
    ensures var r := StepEnter(s, t, Arrive);
      && |ArrivedSet(r)| == |ArrivedSet(s)| + 1 && ExitedSet(r) == ExitedSet(s) && !AllArrived(s)
      && !s.threads[0].pc.Between?
  {
    var r := StepEnter(s, t, Arrive);
    AddOne(ArrivedSet(s), ArrivedSet(r), t);
    assert ExitedSet(r) == ExitedSet(s);
    assert Arrived(s.threads[t]) != Forks(s);
  }

  lemma ArriveOther(s: State, t: nat, u: nat)
    requires Inv(s) && t < |s.threads| && s.threads[t].pc == Enter(Arrive) && u < |s.threads| && u != t
    requires !AllArrived(s)
    ensures var r := StepEnter(s, t, Arrive); Place(r, u) && Knows(r, u) && Micro(r, u)
  {
    var r := StepEnter(s, t, Arrive);
    assert Place(s, u) && Knows(s, u) && Micro(s, u);
    if s.threads[0].pc != Enter(Broadcast) {
      OtherPlace(s, r, u);
    }
    OtherKnows(s, r, u);
    OtherMicro(s, r, u);
  }

  /** exit_count reaching the team size means everybody is out. */
  lemma AllOutMeansAll(s: State, u: nat)
    requires Shape(s) && |ExitedSet(s)| == |s.threads| && u < |s.threads|
    ensures Exited(s.threads[u]) == Forks(s)
  {
    FullSet(ExitedSet(s), |s.threads|, u);
    assert u in ExitedSet(s);
  }

  lemma ExitIncInv(s: State, t: nat)
    requires Inv(s) && t < |s.threads| && s.threads[t].running == 0 && s.threads[t].pc == Barrier(ExitInc)
    ensures Inv(StepBarrier(s, t, ExitInc))
  {
    var r := StepBarrier(s, t, ExitInc);
    assert Place(s, t) && Knows(s, t);
    ExitIncMoves(s, t);
    MovesLocks(s, r, t);
    RunningSame(s.threads, r.threads);
    ExitIncCounts(s, t);
    forall u | 0 <= u < |r.threads| ensures Place(r, u) && Knows(r, u) && Micro(r, u) {
      if r.threads[0].pc.Between? { AllOutMeansAll(r, u); }
      if u == t { ExitIncOwn(s, t); } else { ExitIncOther(s, t, u); }
    }
  }

  lemma ExitIncMoves(s: State, t: nat)
    requires Shape(s) && Locks(s) && t < |s.threads| && s.threads[t].pc == Barrier(ExitInc)
    ensures var r := StepBarrier(s, t, ExitInc);
      Moves(s, r, t) && forall u :: 0 <= u < |s.threads| ==> r.threads[u].running == s.threads[u].running
  {
  }

  lemma ExitIncOwn(s: State, t: nat)
    requires Inv(s) && t < |s.threads| && s.threads[t].running == 0 && s.threads[t].pc == Barrier(ExitInc)
    requires AllArrived(StepBarrier(s, t, ExitInc))
    ensures var r := StepBarrier(s, t, ExitInc); Place(r, t) && Knows(r, t) && Micro(r, t)
  {
    assert Place(s, t) && Knows(s, t) && Micro(s, t);
  }

  lemma ExitIncCounts(s: State, t: nat)
    requires Inv(s) && t < |s.threads| && s.threads[t].pc == Barrier(ExitInc) && Place(s, t) && AllArrived(s)
    ensures var r := StepBarrier(s, t, ExitInc);
      && AllArrived(r) && ArrivedSet(r) == ArrivedSet(s) && |ExitedSet(r)| == s.exitCount + 1
      && !s.threads[0].pc.Between?
  {
    var r := StepBarrier(s, t, ExitInc);
    assert ArrivedSet(r) == ArrivedSet(s);
    AddOne(ExitedSet(s), ExitedSet(r), t);
  }

  lemma ExitIncOther(s: State, t: nat, u: nat)
    requires Inv(s) && t < |s.threads| && s.threads[t].pc == Barrier(ExitInc) && u < |s.threads| && u != t
    requires AllArrived(StepBarrier(s, t, ExitInc)) && Shape(StepBarrier(s, t, ExitInc))
    requires StepBarrier(s, t, ExitInc).threads[0].pc.Between? ==> Exited(s.threads[u]) == Forks(s)
    requires !s.threads[0].pc.Between?
    ensures var r := StepBarrier(s, t, ExitInc); Place(r, u) && Knows(r, u) && Micro(r, u)
  {
    assert Place(s, u) && Knows(s, u) && Micro(s, u);
  }

  lemma SpinExitInv(s: State, t: nat)
    requires Inv(s) && t < |s.threads| && s.threads[t].pc == Leave(SpinExit)
    ensures Inv(StepLeave(s, t, SpinExit))
  {
    var r := StepLeave(s, t, SpinExit);
    assert Place(s, t) && t == 0;
    if r != s {
      assert Moves(s, r, t) && SameStanding(s, r);
      MovesLocks(s, r, t);
      StandingCounts(s, r);
      RunningSame(s.threads, r.threads);
      forall u | 0 <= u < |r.threads| ensures Place(r, u) && Knows(r, u) && Micro(r, u) {
        AllOutMeansAll(s, u);
        SpinExitThread(s, u);
      }
    }
  }

  lemma SpinExitThread(s: State, u: nat)
    requires Inv(s) && s.threads[0].pc == Leave(SpinExit) && u < |s.threads| && Exited(s.threads[u]) == Forks(s)
    requires AllArrived(StepLeave(s, 0, SpinExit)) <==> AllArrived(s)
    ensures var r := StepLeave(s, 0, SpinExit); Place(r, u) && Knows(r, u) && Micro(r, u)
  {
    assert Place(s, u) && Knows(s, u) && Micro(s, u);
  }

  /** The last slave out wakes the master if it sleeps. */
  lemma SignalInv(s: State, t: nat)
    requires Inv(s) && t < |s.threads| && s.threads[t].pc == Close(Signal)
    ensures Inv(StepClose(s, t, Signal))
  {
    var r := StepClose(s, t, Signal);
    assert Place(s, t) && Place(s, 0);
    SignalMoves(s, t);
    StandingCounts(s, r);
    RunningSame(s.threads, r.threads);
    forall u | 0 <= u < |r.threads| ensures Place(r, u) && Knows(r, u) && Micro(r, u) {
      SignalOther(s, t, u);
    }
  }

  lemma SignalMoves(s: State, t: nat)
    requires Shape(s) && Locks(s) && 0 < t < |s.threads| && s.threads[t].pc == Close(Signal)
    ensures var r := StepClose(s, t, Signal);
      && Locks(r) && SameStanding(s, r) && Signalled(r)
      && forall u :: 0 <= u < |s.threads| ==> r.threads[u].running == s.threads[u].running
  {
  }

  lemma SignalOther(s: State, t: nat, u: nat)
    requires Inv(s) && 0 < t < |s.threads| && s.threads[t].pc == Close(Signal) && u < |s.threads|
    requires AllArrived(StepClose(s, t, Signal)) <==> AllArrived(s)
    ensures var r := StepClose(s, t, Signal); Place(r, u) && Knows(r, u) && Micro(r, u)
  {
    assert Place(s, u) && Knows(s, u) && Micro(s, u);
  }

  /** The broadcast wakes every sleeping slave. */
  lemma BroadcastInv(s: State, t: nat)
    requires Inv(s) && t < |s.threads| && s.threads[t].pc == Enter(Broadcast)
    ensures Inv(StepEnter(s, t, Broadcast))
  {
    var r := StepEnter(s, t, Broadcast);
    assert Place(s, t);
    assert SameStanding(s, r);
    StandingCounts(s, r);
    RunningSame(s.threads, r.threads);
    forall u | 0 <= u < |r.threads| ensures Place(r, u) && Knows(r, u) && Micro(r, u) {
      BroadcastOther(s, u);
    }
  }

  lemma BroadcastOther(s: State, u: nat)
    requires Inv(s) && s.threads[0].pc == Enter(Broadcast) && u < |s.threads|
    requires AllArrived(StepEnter(s, 0, Broadcast)) <==> AllArrived(s)
    ensures var r := StepEnter(s, 0, Broadcast); Place(r, u) && Knows(r, u) && Micro(r, u)
  {
    assert Place(s, u) && Knows(s, u) && Micro(s, u);
  }

  // ---------- between regions ----------

  lemma BetweenMoves(s: State, pc: BetweenPc)
    requires Shape(s) && Locks(s) && s.threads[0].pc == Between(pc) && !pc.Toggle?
    ensures Moves(s, StepBetween(s, 0, pc), 0) && SameStanding(s, StepBetween(s, 0, pc))
  {
  }

  lemma BetweenInv(s: State, t: nat, pc: BetweenPc)
    requires Inv(s) && t < |s.threads| && s.threads[t].pc == Between(pc) && !pc.Toggle?
    ensures Inv(StepBetween(s, t, pc))
  {
    var r := StepBetween(s, t, pc);
    assert Place(s, t) && t == 0;
    BetweenMoves(s, pc);
    MovesLocks(s, r, t);
    StandingCounts(s, r);
    RunningSame(s.threads, r.threads);
    BetweenCounts(s, pc);
    forall u | 0 <= u < |r.threads| ensures Place(r, u) && Knows(r, u) && Micro(r, u) {
      BetweenOther(s, u, pc);
    }
  }

  lemma BetweenCounts(s: State, pc: BetweenPc)
    requires Inv(s) && s.threads[0].pc == Between(pc) && !pc.Toggle?
    requires var r := StepBetween(s, 0, pc);
      ArrivedSet(r) == ArrivedSet(s) && ExitedSet(r) == ExitedSet(s) && Running(r.threads) == Running(s.threads)
    ensures Counts(StepBetween(s, 0, pc)) && Signalled(StepBetween(s, 0, pc))
  {
  }

  lemma BetweenOther(s: State, u: nat, pc: BetweenPc)
    requires Inv(s) && s.threads[0].pc == Between(pc) && !pc.Toggle? && u < |s.threads|
    requires AllArrived(StepBetween(s, 0, pc)) <==> AllArrived(s)
    ensures var r := StepBetween(s, 0, pc); Place(r, u) && Knows(r, u) && Micro(r, u)
  {
    assert Place(s, u) && Knows(s, u) && Micro(s, u);
    match pc {
      case SetEntry(i) => if i < |s.threads| { SetEntryOther(s, u, i); } else { SetAllOther(s, u, i); }
      case ForkLock => ForkLockOther(s, u);
      case _ => BeforeEntriesOther(s, u, pc);
    }
  }

  lemma SetEntryOther(s: State, u: nat, i: nat)
    requires Shape(s) && s.threads[0].pc == Between(SetEntry(i)) && i < |s.threads| && u < |s.threads|
    requires Place(s, u) && Knows(s, u) && Micro(s, u)
    requires (AllArrived(StepBetween(s, 0, SetEntry(i))) <==> AllArrived(s))
    ensures var r := StepBetween(s, 0, SetEntry(i)); Place(r, u) && Knows(r, u) && Micro(r, u)
  {
  }

  lemma SetAllOther(s: State, u: nat, i: nat)
    requires Shape(s) && s.threads[0].pc == Between(SetEntry(i)) && i >= |s.threads| && u < |s.threads|
    requires Place(s, u) && Knows(s, u) && Micro(s, u)
    requires (AllArrived(StepBetween(s, 0, SetEntry(i))) <==> AllArrived(s))
    ensures var r := StepBetween(s, 0, SetEntry(i)); Place(r, u) && Knows(r, u) && Micro(r, u)
  {
  }

  lemma ForkLockOther(s: State, u: nat)
    requires Shape(s) && s.threads[0].pc == Between(ForkLock) && u < |s.threads|
    requires Place(s, u) && Knows(s, u) && Micro(s, u) && (AllArrived(StepBetween(s, 0, ForkLock)) <==> AllArrived(s))
    ensures var r := StepBetween(s, 0, ForkLock); Place(r, u) && Knows(r, u) && Micro(r, u)
  {
  }

  lemma BeforeEntriesOther(s: State, u: nat, pc: BetweenPc)
    requires Shape(s) && s.threads[0].pc == Between(pc) && (pc.ResetExit? || pc.ResetCount? || pc.Serial?)
    requires u < |s.threads| && Place(s, u) && Knows(s, u) && Micro(s, u)
    requires AllArrived(StepBetween(s, 0, pc)) <==> AllArrived(s)
    ensures var r := StepBetween(s, 0, pc); Place(r, u) && Knows(r, u) && Micro(r, u)
  {
  }

  /** The fork: nobody is in a region, and no slave is between its check and its sleep. */
  lemma ToggleInv(s: State, t: nat)
    requires Inv(s) && t < |s.threads| && s.threads[t].pc == Between(Toggle)
    ensures Inv(StepBetween(s, t, Toggle))
  {
    var r := StepBetween(s, t, Toggle);
    assert Place(s, t) && t == 0;
    assert Moves(s, r, t);
    MovesLocks(s, r, t);
    RunningSame(s.threads, r.threads);
    forall u | 0 <= u < |r.threads|
      ensures Place(r, u) && Knows(r, u) && Micro(r, u) && u !in ArrivedSet(r) && u !in ExitedSet(r)
    {
      ToggleOther(s, u);
    }
    assert ArrivedSet(r) == {} && ExitedSet(r) == {};
  }

  lemma ToggleOther(s: State, u: nat)
    requires Inv(s) && s.threads[0].pc == Between(Toggle) && u < |s.threads|
    ensures var r := StepBetween(s, 0, Toggle);
      && Place(r, u) && Knows(r, u) && Micro(r, u) && Arrived(r.threads[u]) < Forks(r)
      && Exited(r.threads[u]) < Forks(r)
  {
    assert Place(s, u) && Knows(s, u) && Micro(s, u) && Place(s, 0);
  }

  // ---------- tasks ----------

  /** While tasks can still appear, nobody has found the pool empty with everybody in. */
  lemma ActiveMeansNobodyKnows(s: State, t: nat, u: nat)
    requires Inv(s) && t < |s.threads| && u < |s.threads|
    requires (InMicroTask(s.threads[t].pc) || s.threads[t].running > 0)
    ensures s.threads[u].pc != Barrier(ExitInc) && Exited(s.threads[u]) != Forks(s)
  {
    assert Place(s, t) && Knows(s, u) && Place(s, u);
    NobodyRuns(s.threads);
  }

  lemma SpawnInv(s: State, t: nat)
    requires Inv(s) && t < |s.threads|
    ensures Inv(Next(s, SpawnTask(t)))
  {
    var r := Next(s, SpawnTask(t));
    if r != s {
      assert SameStanding(s, r);
      StandingCounts(s, r);
      forall u | 0 <= u < |r.threads| ensures Place(r, u) && Knows(r, u) && Micro(r, u) {
        assert Place(s, u) && Knows(s, u) && Micro(s, u);
        ActiveMeansNobodyKnows(s, t, u);
      }
    }
  }

  lemma TakeInv(s: State, t: nat)
    requires Inv(s) && t < |s.threads|
    ensures Inv(Next(s, TakeTask(t)))
  {
    var r := Next(s, TakeTask(t));
    if r != s {
      TaskCountInv(s, r, t);
    }
  }

  lemma FinishInv(s: State, t: nat)
    requires Inv(s) && t < |s.threads|
    ensures Inv(Next(s, FinishTask(t)))
  {
    var r := Next(s, FinishTask(t));
    if r != s {
      NobodyRuns(s.threads);
      TaskCountInv(s, r, t);
    }
  }

  lemma TaskCountInv(s: State, r: State, t: nat)
    requires Inv(s) && t < |s.threads| && (HelpsWithTasks(s.threads[t].pc) || s.threads[t].running > 0)
    requires |r.threads| == |s.threads|
    requires r == s.(pending := r.pending, queued := r.queued,
        threads := s.threads[t := s.threads[t].(running := r.threads[t].running)])
    requires r.pending - r.queued - r.threads[t].running == s.pending - s.queued - s.threads[t].running
    requires s.pending == 0 ==> r.pending == 0
    ensures Inv(r)
  {
    RunningUpdate(s.threads, t, r.threads[t]);
    assert SameStanding(s, r);
    StandingCounts(s, r);
    assert Moves(s, r, t);
    MovesLocks(s, r, t);
    forall u | 0 <= u < |r.threads| ensures Place(r, u) && Knows(r, u) && Micro(r, u) {
      TaskCountThread(s, r, t, u);
    }
  }

  lemma TaskCountThread(s: State, r: State, t: nat, u: nat)
    requires Inv(s) && t < |s.threads| && u < |s.threads|
    requires (HelpsWithTasks(s.threads[t].pc) || s.threads[t].running > 0)
    requires |r.threads| == |s.threads|
    requires r == s.(pending := r.pending, queued := r.queued,
        threads := s.threads[t := s.threads[t].(running := r.threads[t].running)])
    requires (AllArrived(s) ==> AllArrived(r)) && (s.pending == 0 ==> r.pending == 0)
    ensures Place(r, u) && Knows(r, u) && Micro(r, u)
  {
    assert Place(s, u) && Knows(s, u) && Micro(s, u);
  }

  // ---------- all runs ----------

  lemma StepInv(s: State, t: nat)
    requires Inv(s) && t < |s.threads| && s.threads[t].running == 0
    ensures Inv(StepThread(s, t))
  {
    match s.threads[t].pc {
      case Between(pc) => if pc.Toggle? { ToggleInv(s, t); } else { BetweenInv(s, t, pc); }
      case Wait(pc) => WaitInv(s, t, pc);
      case Enter(pc) =>
        if pc.Broadcast? { BroadcastInv(s, t); } else if pc.Arrive? { ArriveInv(s, t); } else { EnterInv(s, t, pc); }
      case Barrier(pc) => if pc.ExitInc? { ExitIncInv(s, t); } else { BarrierInv(s, t, pc); }
      case Leave(pc) => if pc.SpinExit? { SpinExitInv(s, t); } else { LeaveInv(s, t, pc); }
      case Close(pc) => if pc.Signal? { SignalInv(s, t); } else { CloseInv(s, t, pc); }
    }
  }

  lemma NextInv(s: State, a: Action)
    requires Inv(s)
    ensures Inv(Next(s, a))
  {
    if a.t < |s.threads| {
      match a {
        case Step(t) => if s.threads[t].running == 0 { StepInv(s, t); }
        case Patient(t) =>
          if s.threads[t].pc == Wait(SpinNew) { QuietInv(s, t, Wait(LockNew)); }
          else if s.threads[t].pc == Leave(SpinExit) { QuietInv(s, t, Leave(LockExit)); }
        case Wake(t) =>
          if s.threads[t].pc == Wait(SleepNew) { QuietInv(s, t, Wait(WokenNew)); }
          else if s.threads[t].pc == Leave(SleepExit) { QuietInv(s, t, Leave(WokenExit)); }
        case SpawnTask(t) => SpawnInv(s, t);
        case TakeTask(t) => TakeInv(s, t);
        case FinishTask(t) => FinishInv(s, t);
      }
    }
  }

  lemma {:induction false} ExecInv(s: State, schedule: seq<Action>)
    requires Inv(s)
    ensures Inv(Exec(s, schedule))
    decreases |schedule|
  {
    if schedule == [] {
    } else {
      NextInv(s, schedule[0]);
      ExecInv(Next(s, schedule[0]), schedule[1..]);
    }
  }

  // ---------- main results ----------

  /**
  In every run every member has run the micro tasks of the regions forked so far in order and once each:
  all of them whenever the master is outside a region, all but perhaps the present one otherwise.
  */
  lemma EachRunsOnce(s: State, schedule: seq<Action>, t: nat)
    requires Init(s) && t < |s.threads|
    ensures var r := Exec(s, schedule);
      && (forall i :: 0 <= i < |r.threads[t].ran| ==> r.threads[t].ran[i] == i + 1)
      && Forks(r) - 1 <= |r.threads[t].ran| <= Forks(r)
      && (r.threads[0].pc.Between? ==> |r.threads[t].ran| == Forks(r))
  {
    InitInv(s);
    ExecInv(s, schedule);
    var r := Exec(s, schedule);
    assert Place(r, t) && Micro(r, t);
  }

  /** Whenever the master is back in the serial part after a region, every slave has given up its micro task. */
  lemma EntriesCleared(s: State, schedule: seq<Action>, t: nat)
    requires Init(s) && 0 < t < |s.threads|
    ensures var r := Exec(s, schedule);
      r.threads[0].pc == Between(Serial) && Forks(r) >= 1 ==> r.entry[t] == 0
  {
    InitInv(s);
    ExecInv(s, schedule);
    var r := Exec(s, schedule);
    assert Place(r, t) && Micro(r, t);
  }

  /** The master passes the join only when every member has left the region and every deferred task has exited. */
  lemma JoinWaitsForAll(s: State, schedule: seq<Action>, t: nat)
    requires Init(s) && t < |s.threads|
    ensures var r := Exec(s, schedule);
      r.threads[0].pc.Between? ==>
        && r.pending == 0 && r.queued == 0 && r.threads[t].running == 0
        && !r.threads[t].pc.Enter? && !r.threads[t].pc.Barrier?
        && (t > 0 ==> r.threads[t].seen == Forks(r))
  {
    InitInv(s);
    ExecInv(s, schedule);
    var r := Exec(s, schedule);
    assert Place(r, t) && Knows(r, t);
    NobodyRuns(r.threads);
  }

  /**
  No lost wakeup: a slave asleep on the fork condition has missed no fork, unless the broadcast is still to come;
  a master asleep on the exit condition still has somebody to wait for, unless the signal is still to come.
  */
  lemma NoLostWakeup(s: State, schedule: seq<Action>, t: nat)
    requires Init(s) && t < |s.threads|
    ensures var r := Exec(s, schedule);
      && (r.threads[t].pc == Wait(SleepNew) && r.newTask == r.threads[t].taskExpect
          ==> r.threads[0].pc == Enter(Broadcast))
      && (r.threads[t].pc == Leave(SleepExit) && r.exitCount == |r.threads| ==>
            exists u :: 0 < u < |r.threads|
                && (r.threads[u].pc == Close(LockSignal) || r.threads[u].pc == Close(Signal)))
  {
    InitInv(s);
    ExecInv(s, schedule);
    var r := Exec(s, schedule);
    assert Place(r, t);
    if r.threads[t].pc == Leave(SleepExit) && r.exitCount == |r.threads| {
      assert 0 < r.closer < |r.threads|;
    }
  }

  /** Thread t cannot do anything that brings the region forward. */
  predicate Stuck(s: State, t: nat)
    requires Shape(s) && t < |s.threads|
  {
    var th := s.threads[t];
    && th.running == 0
    && match th.pc
       case Between(pc) => pc.ForkLock? && s.newLock != -1
       case Wait(pc) =>
         || (pc.SpinNew? && s.newTask != th.taskExpect)
         || ((pc.LockNew? || pc.WokenNew?) && s.newLock != -1)
         || pc.SleepNew?
       case Enter(_) => false
       case Barrier(pc) => !pc.ExitInc? && !(s.barCount == |s.threads| && s.pending == 0) && s.queued == 0
       case Leave(pc) =>
         || (pc.SpinExit? && s.exitCount != |s.threads|)
         || ((pc.LockExit? || pc.WokenExit?) && s.exitLock != -1)
         || pc.SleepExit?
       case Close(pc) => pc.LockSignal? && s.exitLock != -1
  }

  /** A lock holder is never stuck. */
  lemma StuckHoldsNothing(s: State, t: nat)
    requires Inv(s) && t < |s.threads| && Stuck(s, t)
    ensures s.newLock != t && s.exitLock != t
  {
    match s.threads[t].pc {
      case Between(_) =>
      case Wait(_) =>
      case _ =>
    }
  }

  lemma LocksAreFree(s: State)
    requires Inv(s) && forall t :: 0 <= t < |s.threads| ==> Stuck(s, t)
    ensures s.newLock == -1 && s.exitLock == -1
  {
    if s.newLock != -1 {
      StuckHoldsNothing(s, s.newLock);
    }
    if s.exitLock != -1 {
      StuckHoldsNothing(s, s.exitLock);
    }
  }

  /** If everybody were stuck, everybody would have arrived, ... */
  lemma StuckHasArrived(s: State, t: nat)
    requires Inv(s) && t < |s.threads| && Stuck(s, t) && s.newLock == -1 && s.exitLock == -1
    ensures Arrived(s.threads[t]) == Forks(s)
    ensures s.threads[t].pc.Barrier? || Exited(s.threads[t]) == Forks(s)
    ensures s.threads[t].pc.Barrier? ==> s.queued == 0 && !(s.barCount == |s.threads| && s.pending == 0)
  {
    assert Place(s, t);
    if t > 0 && s.threads[t].pc.Wait? {
      SeesFork(s, t);
    }
  }

  /** ... and the pool would be empty, so nobody would be left in the barrier, ... */
  lemma StuckHasExited(s: State, t: nat)
    requires Inv(s) && t < |s.threads| && forall u :: 0 <= u < |s.threads| ==> Stuck(s, u)
    ensures Exited(s.threads[t]) == Forks(s) && !s.threads[t].pc.Barrier?
  {
    LocksAreFree(s);
    forall u | 0 <= u < |s.threads| ensures u in ArrivedSet(s) && s.threads[u].running == 0 {
      assert Stuck(s, u);
      StuckHasArrived(s, u);
    }
    HoldsAll(ArrivedSet(s), |s.threads|);
    FullSet(ArrivedSet(s), |s.threads|, 0);
    NobodyRuns(s.threads);
    StuckHasArrived(s, t);
    assert Place(s, t) && Place(s, 0) && Stuck(s, 0);
  }

  /** No deadlock: in every reachable state some thread can bring the region forward, or the master may fork. */
  lemma NoDeadlock(s: State, schedule: seq<Action>) returns (t: nat)
    requires Init(s)
    ensures var r := Exec(s, schedule); t < |r.threads| && !Stuck(r, t)
  {
    InitInv(s);
    ExecInv(s, schedule);
    var r := Exec(s, schedule);
    if t0 :| 0 <= t0 < |r.threads| && !Stuck(r, t0) {
      t := t0;
    } else {
      NotAllStuck(r);
    }
  }

  predicate Closing(pc: Pc) {
    pc == Close(LockSignal) || pc == Close(Signal)
  }

  lemma StuckNotClosing(s: State, t: nat)
    requires Shape(s) && t < |s.threads| && Stuck(s, t) && s.exitLock == -1
    ensures !Closing(s.threads[t].pc)
  {
  }

  /** With everybody out and no signal under way, the master is let go. */
  lemma MasterLetGo(s: State)
    requires Inv(s) && s.newLock == -1 && s.exitLock == -1 && |ExitedSet(s)| == |s.threads|
    requires Exited(s.threads[0]) == Forks(s) && forall u :: 0 <= u < |s.threads| ==> !Closing(s.threads[u].pc)
    ensures !Stuck(s, 0)
  {
    assert Place(s, 0);
  }

  /** ... and then the master would have been let go. */
  lemma NotAllStuck(s: State)
    requires Inv(s)
    ensures exists t :: 0 <= t < |s.threads| && !Stuck(s, t)
  {
    if forall t :: 0 <= t < |s.threads| ==> Stuck(s, t) {
      LocksAreFree(s);
      forall u | 0 <= u < |s.threads| ensures u in ExitedSet(s) && !Closing(s.threads[u].pc) {
        StuckHasExited(s, u);
        StuckNotClosing(s, u);
      }
      HoldsAll(ExitedSet(s), |s.threads|);
      FullSet(ExitedSet(s), |s.threads|, 0);
      MasterLetGo(s);
    }
  }
}
