/** The queues in order of age, and which task a thread that looks for work finds. */
module TaskQueues {
  import opened TaskScheduler
  import opened TaskPlacement
  import opened TaskLives
  import opened TaskRuns
  import opened TaskCalls

  /** From head to tail the entries get younger; one being created is younger than all; and there is room for them. */
  predicate Ascending(th: Thread, capacity: nat)
    requires th.stack != []
  {
    && (forall i, j :: 0 <= i < j < |th.queue| ==> th.queue[i] < th.queue[j])
    && (Top(th).mode.Spawning? ==> forall j :: 0 <= j < |th.queue| ==> th.queue[j] < Top(th).mode.child)
    && |th.queue| <= capacity
  }

  predicate InOrder(s: State)
    requires Tables(s)
  {
    forall t :: 0 <= t < |s.threads| ==> Ascending(s.threads[t], s.capacity)
  }

  lemma SameQueue(th: Thread, th': Thread, capacity: nat)
    requires th.stack != [] && th'.stack != [] && Ascending(th, capacity) && th'.queue == th.queue
    requires Top(th').mode.Spawning? ==> Top(th).mode.Spawning? && Top(th').mode.child == Top(th).mode.child
    ensures Ascending(th', capacity)
  {
  }

  lemma TakeQueue(s: State, t: nat, victim: nat, resume: Mode)
    requires Tables(s) && t < |s.threads| && Tables(Take(s, t, victim, resume)) && !resume.Spawning?
    requires Ascending(s.threads[t], s.capacity)
    ensures Ascending(Take(s, t, victim, resume).threads[t], s.capacity)
    ensures Take(s, t, victim, resume).capacity == s.capacity
  {
  }

  lemma SpawnStepQueue(s: State, t: nat)
    requires Tables(s) && t < |s.threads| && Top(s.threads[t]).mode.Spawning? && Tables(SpawnStep(s, t))
    requires Ascending(s.threads[t], s.capacity)
    ensures Ascending(SpawnStep(s, t).threads[t], s.capacity) && SpawnStep(s, t).capacity == s.capacity
  {
    if Top(s.threads[t]).mode.stage == 3 {
      PutQueue(s, t);
    } else {
      SameQueue(s.threads[t], SpawnStep(s, t).threads[t], s.capacity);
    }
  }

  lemma PutQueue(s: State, t: nat)
    requires Tables(s) && t < |s.threads| && Top(s.threads[t]).mode.Spawning? && Top(s.threads[t]).mode.stage == 3
    requires Ascending(s.threads[t], s.capacity)
    ensures Ascending(SpawnStep(s, t).threads[t], s.capacity) && SpawnStep(s, t).capacity == s.capacity
  {
  }

  /** Thread t looks for a task to run, in a taskwait, at its exit, or in the barrier. */
  predicate LooksForTask(s: State, t: nat)
    requires Tables(s) && t < |s.threads|
  {
    var m := Top(s.threads[t]).mode;
    m.WaitTake? || m.ExitTake? || m == Bar(DrainTake)
  }

  function Resume(m: Mode): Mode {
    if m.WaitTake? then WaitCheck else if m.ExitTake? then ExitCheck else Bar(DrainCheck)
  }

  lemma LookIsTake(s: State, t: nat, victim: nat)
    requires Placed(s) && t < |s.threads| && LooksForTask(s, t)
    ensures Next(s, Step(t, victim)) == Take(s, t, victim, Resume(Top(s.threads[t]).mode))
    ensures IsExit(Top(s.threads[t]).mode) ==> ExitStep(s, t, victim) == Next(s, Step(t, victim))
  {
    assert ThreadOk(s, t) && FrameOk(s, t, |s.threads[t].stack| - 1);
  }

  lemma ExitStepQueue(s: State, t: nat, victim: nat)
    requires Placed(s) && t < |s.threads| && IsExit(Top(s.threads[t]).mode) && Tables(ExitStep(s, t, victim))
    requires Ascending(s.threads[t], s.capacity) && |ExitStep(s, t, victim).threads| == |s.threads|
    ensures Ascending(ExitStep(s, t, victim).threads[t], s.capacity) && ExitStep(s, t, victim).capacity == s.capacity
  {
    match Top(s.threads[t]).mode {
      case ExitTake =>
        LookIsTake(s, t, victim);
        TakeQueue(s, t, victim, ExitCheck);
      case ExitBlocking => ExitReturnQueue(s, ExitStep(s, t, victim), t, victim);
      case ExitPending => ExitModeQueue(s, ExitStep(s, t, victim), t, victim);
      case ExitParent => ExitModeQueue(s, ExitStep(s, t, victim), t, victim);
      case ExitCheck => ExitModeQueue(s, ExitStep(s, t, victim), t, victim);
    }
  }

  /** The task returned to is in the middle of no creation. */
  lemma ExitReturnQueue(s: State, r: State, t: nat, victim: nat)
    requires Placed(s) && t < |s.threads| && Top(s.threads[t]).mode.ExitBlocking? && r == ExitStep(s, t, victim)
    requires Tables(r) && |r.threads| == |s.threads| && Ascending(s.threads[t], s.capacity)
    ensures Ascending(r.threads[t], s.capacity) && r.capacity == s.capacity
  {
    assert ThreadOk(s, t) && FrameOk(s, t, |s.threads[t].stack| - 1) && FrameOk(s, t, |s.threads[t].stack| - 2);
    SameQueue(s.threads[t], r.threads[t], s.capacity);
  }

  lemma ExitModeQueue(s: State, r: State, t: nat, victim: nat)
    requires Tables(s) && t < |s.threads| && IsExit(Top(s.threads[t]).mode) && r == ExitStep(s, t, victim)
    requires !Top(s.threads[t]).mode.ExitTake? && !Top(s.threads[t]).mode.ExitBlocking?
    requires Tables(r) && |r.threads| == |s.threads| && Ascending(s.threads[t], s.capacity)
    ensures Ascending(r.threads[t], s.capacity) && r.capacity == s.capacity
  {
    SameQueue(s.threads[t], r.threads[t], s.capacity);
  }

  lemma BarStepQueue(s: State, t: nat, victim: nat)
    requires Tables(s) && t < |s.threads| && Top(s.threads[t]).mode.Bar? && Tables(BarStep(s, t, victim))
    requires Ascending(s.threads[t], s.capacity)
    ensures Ascending(BarStep(s, t, victim).threads[t], s.capacity) && BarStep(s, t, victim).capacity == s.capacity
  {
    match Top(s.threads[t]).mode.pc {
      case DrainTake => TakeQueue(s, t, victim, Bar(DrainCheck));
      case _ => SameQueue(s.threads[t], BarStep(s, t, victim).threads[t], s.capacity);
    }
  }

  lemma StepQueue(s: State, r: State, t: nat, victim: nat)
    requires Placed(s) && t < |s.threads| && r == Next(s, Step(t, victim)) && Tables(r) && |r.threads| == |s.threads|
    requires Ascending(s.threads[t], s.capacity)
    ensures Ascending(r.threads[t], s.capacity) && r.capacity == s.capacity
  {
    match Top(s.threads[t]).mode {
      case Running =>
      case Spawning(_, _) => SpawnStepQueue(s, t);
      case WaitCheck => SameQueue(s.threads[t], r.threads[t], s.capacity);
      case WaitTake => TakeQueue(s, t, victim, WaitCheck);
      case Bar(_) => BarStepQueue(s, t, victim);
      case _ => ExitStepQueue(s, t, victim);
    }
  }

  lemma CallQueue(s: State, r: State, a: Action)
    requires Tables(s) && a.t < |s.threads| && !a.Step? && r == Next(s, a) && Tables(r) && |r.threads| == |s.threads|
    requires Ascending(s.threads[a.t], s.capacity)
    ensures Ascending(r.threads[a.t], s.capacity) && r.capacity == s.capacity
  {
  }

  lemma OtherQueue(s: State, r: State, t: nat, u: nat)
    requires Tables(s) && Tables(r) && u < |s.threads| && u != t && OthersUndisturbed(s, r, t)
    requires Ascending(s.threads[u], s.capacity) && r.capacity == s.capacity
    ensures Ascending(r.threads[u], s.capacity)
  {
    assert AtMostStolenFrom(s, r, u);
  }

  lemma NextInOrder(s: State, r: State, a: Action)
    requires Inv(s) && a.t < |s.threads| && r == Next(s, a) && Placed(r) && InOrder(s)
    ensures InOrder(r)
  {
    NextUndisturbed(s, a);
    if a.Step? { StepQueue(s, r, a.t, a.victim); } else { CallQueue(s, r, a); }
    forall u | 0 <= u < |r.threads| ensures Ascending(r.threads[u], r.capacity) {
      if u != a.t { OtherQueue(s, r, a.t, u); }
    }
  }

  lemma {:induction false} ExecInOrder(s: State, schedule: seq<Action>)
    requires Inv(s) && InOrder(s)
    ensures Inv(Exec(s, schedule)) && InOrder(Exec(s, schedule))
    decreases |schedule|
  {
    if schedule == [] {
    } else {
      var a := schedule[0];
      NextInv(s, a);
      if a.t < |s.threads| { NextInOrder(s, Next(s, a), a); }
      ExecInOrder(Next(s, a), schedule[1..]);
    }
  }

  lemma InitInOrder(s: State)
    requires Init(s)
    ensures Tables(s) && InOrder(s)
  {
    InitPlaced(s);
  }

  /** In every reachable state every queue holds at most its capacity of tasks, the oldest at the head. */
  lemma QueuesInOrder(r: State)
    requires Reachable(r) && Tables(r)
    ensures InOrder(r)
  {
    var s: State, schedule: seq<Action> :| IsRun(s, schedule, r);
    InitInv(s);
    InitInOrder(s);
    ExecInOrder(s, schedule);
  }

  // ---------- taking ----------

  /** From s to r thread t has put task x on top of what it ran, and no other task has gone on. */
  predicate RunsNow(s: State, r: State, t: nat, x: nat)
    requires Tables(s) && t < |s.threads|
  {
    && |r.threads| == |s.threads| && Starts(s, r, t, x) && Pushed(s.threads[t].stack, r.threads[t].stack)
    && x < |s.life| && r.life == s.life[x := Active(t)]
    && forall u :: 0 <= u < |s.threads| && u != t ==> r.threads[u].stack == s.threads[u].stack
  }

  lemma OwnRuns(s: State, r: State, t: nat, victim: nat, resume: Mode)
    requires Tables(s) && t < |s.threads| && s.threads[t].queue != [] && r == Take(s, t, victim, resume) && Tables(r)
    ensures var (q, x) := (s.threads[t].queue, s.threads[t].queue[|s.threads[t].queue| - 1]);
      RunsNow(s, r, t, x) && r.threads[t].queue == q[..|q| - 1]
  {
    TakeStacks(s, t, victim, resume);
  }

  lemma StolenRuns(s: State, r: State, t: nat, v: nat, resume: Mode)
    requires Tables(s) && t < |s.threads| && s.threads[t].queue == [] && s.threads[t].suspended == 0
    requires Top(s.threads[t]).mode.Bar? && v < |s.threads| && v != t && s.threads[v].queue != []
    requires r == Take(s, t, v, resume) && Tables(r)
    ensures RunsNow(s, r, t, s.threads[v].queue[0]) && r.threads[v].queue == s.threads[v].queue[1..]
  {
    TakeStacks(s, t, v, resume);
  }

  lemma NothingRuns(s: State, r: State, t: nat, v: nat, resume: Mode)
    requires Tables(s) && t < |s.threads| && s.threads[t].queue == [] && r == Take(s, t, v, resume) && Tables(r)
    requires !Top(s.threads[t]).mode.Bar? || v >= |s.threads| || v == t || s.threads[v].queue == []
    ensures r.life == s.life && |r.threads[t].stack| == |s.threads[t].stack|
  {
  }

  /** A thread that looks for work and has some of its own runs the youngest of it, whatever it does at the time. */
  lemma OwnYoungestFirst(r: State, t: nat, victim: nat)
    requires Reachable(r) && Tables(r) && t < |r.threads| && LooksForTask(r, t) && r.threads[t].queue != []
    ensures var (q, n) := (r.threads[t].queue, |r.threads[t].queue| - 1);
      && RunsNow(r, Next(r, Step(t, victim)), t, q[n]) && Next(r, Step(t, victim)).threads[t].queue == q[..n]
      && forall j :: 0 <= j < n ==> q[j] < q[n]
  {
    ReachableInv(r);
    QueuesInOrder(r);
    NextPlaced(r, Step(t, victim));
    LookIsTake(r, t, victim);
    OwnRuns(r, Next(r, Step(t, victim)), t, victim, Resume(Top(r.threads[t]).mode));
  }

  /** One that has none steals the oldest of another's, and it does so exactly when it is in the barrier. */
  lemma OldestStolenInBarrier(r: State, t: nat, v: nat)
    requires Reachable(r) && Tables(r) && t < |r.threads| && LooksForTask(r, t) && r.threads[t].queue == []
    requires v < |r.threads| && v != t && r.threads[v].queue != []
    ensures var (q, m) := (r.threads[v].queue, Next(r, Step(t, v)));
      && (Top(r.threads[t]).mode.Bar? ==> RunsNow(r, m, t, q[0]) && m.threads[v].queue == q[1..])
      && (!Top(r.threads[t]).mode.Bar? ==> m.life == r.life && |m.threads| == |r.threads| && m.threads[v].queue == q)
      && forall j :: 0 < j < |q| ==> q[0] < q[j]
  {
    ReachableInv(r);
    QueuesInOrder(r);
    NextPlaced(r, Step(t, v));
    LookIsTake(r, t, v);
    assert ThreadOk(r, t) && FrameOk(r, t, |r.threads[t].stack| - 1);
    if Top(r.threads[t]).mode.Bar? {
      StolenRuns(r, Next(r, Step(t, v)), t, v, Bar(DrainCheck));
    } else {
      NothingRuns(r, Next(r, Step(t, v)), t, v, Resume(Top(r.threads[t]).mode));
    }
  }

  // ---------- creating ----------

  /** A new task ends up youngest in its creator's queue, or, if that is full, runs at once on top of its creator. */
  lemma CreatedIsPut(r: State, t: nat, victim: nat, x: nat)
    requires Reachable(r) && Tables(r) && t < |r.threads| && Top(r.threads[t]).mode == Spawning(x, 3)
    ensures var (q, m) := (r.threads[t].queue, Next(r, Step(t, victim)));
      && (|q| < r.capacity ==> |m.threads| == |r.threads| && m.threads[t].queue == q + [x] && !Starts(r, m, t, x))
      && (|q| >= r.capacity ==> RunsNow(r, m, t, x) && m.threads[t].queue == q)
  {
    ReachableInv(r);
    NextPlaced(r, Step(t, victim));
    assert ThreadOk(r, t) && FrameOk(r, t, |r.threads[t].stack| - 1);
    PutRuns(r, Next(r, Step(t, victim)), t, x);
  }

  lemma PutRuns(s: State, r: State, t: nat, x: nat)
    requires Tables(s) && t < |s.threads| && Top(s.threads[t]).mode == Spawning(x, 3) && x < |s.life|
    requires r == SpawnStep(s, t) && Tables(r)
    ensures |s.threads[t].queue| < s.capacity ==>
      |r.threads| == |s.threads| && r.threads[t].queue == s.threads[t].queue + [x] && !Starts(s, r, t, x)
    ensures |s.threads[t].queue| >= s.capacity ==> RunsNow(s, r, t, x) && r.threads[t].queue == s.threads[t].queue
  {
    SpawnStepStacks(s, t);
  }
}
