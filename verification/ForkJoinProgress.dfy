/** How the members of a team get through a region: no stage is skipped, and who is not stuck gets on. */
module ForkJoinProgress {
  import opened Arith
  import opened ForkJoin

  /** Stages of a region, from entering it; 0 is outside. */
  function Stage(t: nat, pc: Pc): nat {
    match pc
    case Enter(Broadcast) => 1
    case Enter(ForkUnlock) => 2
    case Enter(ReadEntry) => 1
    case Enter(Work(_)) => if t == 0 then 3 else 2
    case Enter(ClearEntry) => 3
    case Enter(Arrive) => 4
    case Barrier(_) => 5
    case _ => 0
  }

  /** Six stages a region. */
  function Position(t: nat, th: Thread): int {
    6 * th.seen + (if Stage(t, th.pc) > 0 then Stage(t, th.pc) - 6 else 0)
  }

  lemma StepPosition(s: State, t: nat)
    requires Inv(s) && t < |s.threads|
    ensures Position(t, s.threads[t]) <= Position(t, StepThread(s, t).threads[t]) <= Position(t, s.threads[t]) + 1
  {
    assert Place(s, t) && Micro(s, t);
    match s.threads[t].pc {
      case Enter(pc) => EnterPosition(s, t, pc);
      case _ => OutsidePosition(s, t);
    }
  }

  lemma OutsidePosition(s: State, t: nat)
    requires Shape(s) && t < |s.threads| && !s.threads[t].pc.Enter?
    requires if t == 0 then IsMaster(s.threads[t].pc) else IsSlave(s.threads[t].pc)
    ensures Position(t, s.threads[t]) <= Position(t, StepThread(s, t).threads[t]) <= Position(t, s.threads[t]) + 1
  {
    match s.threads[t].pc {
      case Between(pc) => BetweenPosition(s, t, pc);
      case Wait(pc) => WaitPosition(s, t, pc);
      case Barrier(pc) => BarrierPosition(s, t, pc);
      case Leave(pc) =>
      case Close(pc) => ClosePosition(s, t, pc);
    }
  }

  lemma BetweenPosition(s: State, t: nat, pc: BetweenPc)
    requires Shape(s) && t < |s.threads| && s.threads[t].pc == Between(pc)
    ensures Position(t, s.threads[t]) <= Position(t, StepBetween(s, t, pc).threads[t]) <= Position(t, s.threads[t]) + 1
  {
  }

  lemma WaitPosition(s: State, t: nat, pc: WaitPc)
    requires Shape(s) && t < |s.threads| && s.threads[t].pc == Wait(pc)
    ensures Position(t, s.threads[t]) <= Position(t, StepWait(s, t, pc).threads[t]) <= Position(t, s.threads[t]) + 1
  {
  }

  lemma BarrierPosition(s: State, t: nat, pc: BarrierPc)
    requires Shape(s) && t < |s.threads| && s.threads[t].pc == Barrier(pc)
    ensures Position(t, s.threads[t]) <= Position(t, StepBarrier(s, t, pc).threads[t]) <= Position(t, s.threads[t]) + 1
  {
  }

  lemma ClosePosition(s: State, t: nat, pc: ClosePc)
    requires Shape(s) && t < |s.threads| && s.threads[t].pc == Close(pc)
    ensures Position(t, StepClose(s, t, pc).threads[t]) == Position(t, s.threads[t])
  {
  }

  lemma EnterPosition(s: State, t: nat, pc: EnterPc)
    requires Shape(s) && t < |s.threads| && s.threads[t].pc == Enter(pc) && (pc.ReadEntry? ==> s.entry[t] != 0)
    requires if t == 0 then IsMaster(s.threads[t].pc) else IsSlave(s.threads[t].pc)
    ensures Position(t, StepEnter(s, t, pc).threads[t]) == Position(t, s.threads[t]) + 1
  {
  }

  /** Another thread's step moves nobody on; at most it wakes somebody up. */
  lemma OtherPosition(s: State, u: nat, t: nat)
    requires Shape(s) && t < |s.threads| && u < |s.threads| && u != t
    ensures Position(t, StepThread(s, u).threads[t]) == Position(t, s.threads[t])
  {
    match s.threads[u].pc {
      case Between(pc) =>
      case Wait(pc) =>
      case Enter(pc) =>
      case Barrier(pc) =>
      case Leave(pc) =>
      case Close(pc) =>
    }
  }

  lemma NextPosition(s: State, a: Action, t: nat)
    requires Inv(s) && t < |s.threads|
    ensures Position(t, s.threads[t]) <= Position(t, Next(s, a).threads[t])
         <= Position(t, s.threads[t]) + One(a == Step(t))
  {
    if a.Step? && a.t < |s.threads| && s.threads[a.t].running == 0 {
      if a.t == t { StepPosition(s, t); } else { OtherPosition(s, a.t, t); }
    }
  }

  /**
  No stage is skipped: in every run, whatever happens next leaves thread t where it is or, by a step of its own, one
  stage further: entering the region, running its micro task, arriving at its barrier, leaving it.
  */
  lemma StageByStage(s: State, schedule: seq<Action>, a: Action, t: nat)
    requires Init(s) && t < |s.threads|
    ensures var r := Exec(s, schedule);
      && Position(t, r.threads[t]) <= Position(t, Next(r, a).threads[t])
      && Position(t, Next(r, a).threads[t]) <= Position(t, r.threads[t]) + One(a == Step(t))
  {
    InitInv(s);
    ExecInv(s, schedule);
    NextPosition(Exec(s, schedule), a, t);
  }

  // ---------- who is not stuck gets on ----------

  /** Where a thread is within a stage; what a loop of the barrier looks at counts the same. */
  function Inner(pc: Pc, n: nat): nat {
    match pc
    case Between(ResetExit) => 4
    case Between(ResetCount) => 5
    case Between(Serial) => 6
    case Between(SetEntry(i)) => 7 + (if i < n then i else n)
    case Between(ForkLock) => 8 + n
    case Between(Toggle) => 9 + n
    case Wait(LockNew) => 3
    case Wait(WokenNew) => 3
    case Wait(CheckNew) => 4
    case Wait(CommitNew) => 5
    case Wait(UnlockNew) => 5
    case Wait(SleepNew) => 6
    case Wait(SpinNew) => 6
    case Wait(Flip) => 7
    case Barrier(ExitInc) => 1
    case Leave(LockExit) => 0
    case Leave(WokenExit) => 0
    case Leave(CheckExit) => 1
    case Leave(CommitExit) => 2
    case Leave(UnlockExit) => 2
    case Leave(SleepExit) => 3
    case Leave(SpinExit) => 3
    case Close(Signal) => 1
    case Close(UnlockSignal) => 2
    case _ => 0
  }

  /** From s to r thread t has come further, or some task has been taken or has finished. */
  predicate Gains(s: State, r: State, t: nat)
    requires t < |s.threads| && t < |r.threads|
  {
    var (p, p') := (Position(t, s.threads[t]), Position(t, r.threads[t]));
    || p' > p
    || (p' == p && Inner(r.threads[t].pc, |s.threads|) > Inner(s.threads[t].pc, |s.threads|))
    || r.pending < s.pending
    || r.queued < s.queued
  }

  predicate InLoop(pc: Pc) {
    pc.Barrier? && !pc.barrier.ExitInc?
  }

  /** How many looks the barrier's loop takes before a task is taken or the loop is over. */
  function LooksBefore(pc: Pc, queued: bool): nat {
    match pc
    case Barrier(CheckCount) => if queued then 2 else 1
    case Barrier(CheckPending) => if queued then 1 else 0
    case Barrier(Drain) => if queued then 0 else 2
    case _ => 0
  }

  lemma WaitGains(s: State, t: nat, pc: WaitPc)
    requires Shape(s) && t < |s.threads| && s.threads[t].pc == Wait(pc) && !Stuck(s, t) && s.threads[t].running == 0
    ensures Gains(s, StepWait(s, t, pc), t)
  {
  }

  lemma BetweenGains(s: State, t: nat, pc: BetweenPc)
    requires Shape(s) && t < |s.threads| && s.threads[t].pc == Between(pc) && !Stuck(s, t) && s.threads[t].running == 0
    ensures Gains(s, StepBetween(s, t, pc), t)
  {
  }

  lemma LeaveGains(s: State, t: nat, pc: LeavePc)
    requires Shape(s) && t < |s.threads| && s.threads[t].pc == Leave(pc) && !Stuck(s, t) && s.threads[t].running == 0
    ensures Gains(s, StepLeave(s, t, pc), t)
  {
  }

  lemma CloseGains(s: State, t: nat, pc: ClosePc)
    requires Shape(s) && t < |s.threads| && s.threads[t].pc == Close(pc) && !Stuck(s, t) && s.threads[t].running == 0
    ensures Gains(s, StepClose(s, t, pc), t)
  {
  }

  /** A look of the barrier's loop ends it, or brings it one point further with all else the same. */
  lemma LoopGains(s: State, t: nat)
    requires Shape(s) && t < |s.threads| && InLoop(s.threads[t].pc) && !Stuck(s, t) && s.threads[t].running == 0
    requires s.queued > 0 ==> s.pending != 0
    requires s.queued > 0 ==> !s.threads[t].pc.barrier.Drain?
    ensures var r := Next(s, Step(t));
      || Gains(s, r, t)
      || (&& r == Goto(s, t, r.threads[t].pc) && InLoop(r.threads[t].pc) && !Stuck(r, t)
          && LooksBefore(r.threads[t].pc, s.queued > 0) < LooksBefore(s.threads[t].pc, s.queued > 0))
  {
  }

  lemma {:induction false} LoopOn(s: State, t: nat) returns (schedule: seq<Action>)
    requires Shape(s) && t < |s.threads| && InLoop(s.threads[t].pc) && !Stuck(s, t) && s.threads[t].running == 0
    requires s.queued > 0 ==> s.pending != 0
    ensures |schedule| <= LooksBefore(s.threads[t].pc, s.queued > 0) + 1
    ensures forall a :: a in schedule ==> a.t == t
    ensures Gains(s, Exec(s, schedule), t)
    decreases LooksBefore(s.threads[t].pc, s.queued > 0)
  {
    if s.queued > 0 && s.threads[t].pc.barrier.Drain? {
      schedule := [TakeTask(t)];
      assert Exec(s, schedule) == Next(s, TakeTask(t));
    } else {
      var r := Next(s, Step(t));
      LoopGains(s, t);
      if Gains(s, r, t) {
        schedule := [Step(t)];
        assert Exec(s, schedule) == r;
      } else {
        var rest := LoopOn(r, t);
        schedule := [Step(t)] + rest;
        assert schedule[1..] == rest;
      }
    }
  }

  /**
  A thread that is not stuck gets on: by at most three actions of its own it comes further in the region, or a task
  is taken from the pool or has finished.
  */
  lemma NotStuckGains(s: State, schedule: seq<Action>, t: nat) returns (own: seq<Action>)
    requires Init(s) && t < |s.threads| && !Stuck(Exec(s, schedule), t)
    ensures |own| <= 3 && (forall a :: a in own ==> a.t == t)
    ensures Gains(Exec(s, schedule), Exec(Exec(s, schedule), own), t)
  {
    InitInv(s);
    ExecInv(s, schedule);
    own := Goes(Exec(s, schedule), t);
  }

  lemma Goes(s: State, t: nat) returns (own: seq<Action>)
    requires Inv(s) && t < |s.threads| && !Stuck(s, t)
    ensures |own| <= 3 && (forall a :: a in own ==> a.t == t)
    ensures Gains(s, Exec(s, own), t)
  {
    assert Place(s, t) && Micro(s, t);
    if s.threads[t].running > 0 {
      own := [FinishTask(t)];
      assert Exec(s, own) == Next(s, FinishTask(t));
    } else if InLoop(s.threads[t].pc) {
      own := LoopOn(s, t);
    } else {
      own := [Step(t)];
      assert Exec(s, own) == Next(s, Step(t));
      StepGains(s, t);
    }
  }

  lemma StepGains(s: State, t: nat)
    requires Shape(s) && t < |s.threads| && Place(s, t) && Micro(s, t) && !Stuck(s, t) && s.threads[t].running == 0
    requires !InLoop(s.threads[t].pc)
    ensures Gains(s, StepThread(s, t), t)
  {
    match s.threads[t].pc {
      case Between(pc) => BetweenGains(s, t, pc);
      case Wait(pc) => WaitGains(s, t, pc);
      case Enter(pc) => EnterPosition(s, t, pc);
      case Barrier(pc) =>
      case Leave(pc) => LeaveGains(s, t, pc);
      case Close(pc) => CloseGains(s, t, pc);
    }
  }

  // ---------- giving up spinning ----------

  /** The region entered or joined has nothing for thread t yet. */
  predicate NothingYet(s: State, t: nat)
    requires Shape(s) && t < |s.threads|
  {
    || (s.threads[t].pc == Wait(SpinNew) && s.newTask != s.threads[t].taskExpect && s.newLock == -1)
    || (s.threads[t].pc == Leave(SpinExit) && s.exitCount != |s.threads| && s.exitLock == -1)
  }

  predicate Asleep(pc: Pc) {
    pc == Wait(SleepNew) || pc == Leave(SleepExit)
  }

  /** Who has spun long enough for nothing goes to sleep, holding no lock, and looks again when woken. */
  lemma PatientSleeps(s: State, t: nat)
    requires Shape(s) && t < |s.threads| && s.threads[t].running == 0 && NothingYet(s, t)
    ensures var s1 := Next(s, Patient(t));
      var r := Next(Next(Next(s1, Step(t)), Step(t)), Step(t));
      && Asleep(r.threads[t].pc) && r.newLock == s.newLock && r.exitLock == s.exitLock
      && Next(Next(r, Wake(t)), Step(t)) == Next(s1, Step(t))
  {
    var s1 := Next(s, Patient(t));
    var s2 := Next(s1, Step(t));
    var s3 := Next(s2, Step(t));
    var r := Next(s3, Step(t));
    assert r == Goto(s, t, r.threads[t].pc);
    assert Next(r, Wake(t)).threads[t := s1.threads[t]] == s1.threads;
  }

  // ---------- the task pool ----------

  predicate Creates(s: State, a: Action) {
    a.SpawnTask? && a.t < |s.threads| && (InMicroTask(s.threads[a.t].pc) || s.threads[a.t].running > 0)
  }

  predicate Finishes(s: State, a: Action) {
    a.FinishTask? && a.t < |s.threads| && s.threads[a.t].running > 0
  }

  /** How many tasks a run creates, and how many it finishes. */
  function Created(s: State, schedule: seq<Action>): nat
    requires Shape(s)
    decreases |schedule|
  {
    if schedule == [] then 0 else One(Creates(s, schedule[0])) + Created(Next(s, schedule[0]), schedule[1..])
  }

  function Finished(s: State, schedule: seq<Action>): nat
    requires Shape(s)
    decreases |schedule|
  {
    if schedule == [] then 0 else One(Finishes(s, schedule[0])) + Finished(Next(s, schedule[0]), schedule[1..])
  }

  lemma StepPending(s: State, t: nat)
    requires Shape(s) && t < |s.threads|
    ensures StepThread(s, t).pending == s.pending
  {
  }

  lemma NextPending(s: State, a: Action)
    requires Shape(s)
    ensures Next(s, a).pending == s.pending + One(Creates(s, a)) - One(Finishes(s, a))
  {
    if a.Step? && a.t < |s.threads| { StepPending(s, a.t); }
  }

  lemma {:induction false} RunPending(s: State, schedule: seq<Action>)
    requires Shape(s)
    ensures Exec(s, schedule).pending == s.pending + Created(s, schedule) - Finished(s, schedule)
    decreases |schedule|
  {
    if schedule == [] {
    } else {
      NextPending(s, schedule[0]);
      RunPending(Next(s, schedule[0]), schedule[1..]);
    }
  }

  /** At every join each of the tasks created by micro tasks and tasks so far has been run to its end. */
  lemma JoinFinishesTasks(s: State, schedule: seq<Action>)
    requires Init(s) && Exec(s, schedule).threads[0].pc.Between?
    ensures Created(s, schedule) == Finished(s, schedule)
  {
    RunPending(s, schedule);
    JoinWaitsForAll(s, schedule, 0);
  }
}
