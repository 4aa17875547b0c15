/**
The task scheduler: per-thread queues of tied tasks, work stealing, taskwait, task exit, and the
barrier that drains the pool.  Every shared access is one step of one thread, and a schedule is
any sequence of steps.  All explicit tasks are tied; an undeferred one is run at once by its creator.

Tasks are numbered in order of creation; task t < n is the implicit task of thread t.
*/
module TaskScheduler {

  /** Program points of the barrier. */
  datatype BarPc =
    | Arrive | ReadCount | ReadPending | DrainCheck | DrainTake
    | CountOut | ResetCount | ResetCount2 | Toggle | AwaitFlag

  /** What a task on a thread's call stack is doing. */
  datatype Mode =
    | Running
    | Spawning(child: nat, stage: nat)
    | WaitCheck | WaitTake
    | ExitPending | ExitParent | ExitCheck | ExitTake | ExitBlocking
    | Bar(pc: BarPc)

  /** `base` is where the thread's queue ended when the task started; the program never reads it. */
  datatype Frame = Frame(task: nat, mode: Mode, base: nat)

  /**
  The call stack, the tied queue from head to tail, and the count of suspended tied tasks.
  `stolen` counts the entries taken from the head so far, `episode` the barriers left; both are for the proof only.
  */
  datatype Thread = Thread(stack: seq<Frame>, queue: seq<nat>, suspended: int, barFlag: bool, stolen: nat, episode: nat)

  /** Where a task is in its life.  The program has no such field; it follows from the steps. */
  datatype Life =
    | Spawned(t: nat, stage: nat)
    | Queued(t: nat)
    | Active(t: nat)
    | CountedOut(t: nat)
    | Left(t: nat)
    | Done

  /** Whether the counters count a task; implicit tasks are not deferred either. */
  datatype Kind = Deferred(blocks: bool) | Undeferred

  datatype State = State(
    capacity: nat,
    threads: seq<Thread>,
    parent: seq<int>, kinds: seq<Kind>,
    numChildren: seq<int>, numBlocking: seq<int>,
    numPending: int,
    count: int, count2: int, flag: bool, toggles: nat,
    life: seq<Life>)

  datatype Action =
    | Spawn(t: nat, blocks: bool)
    | RunNow(t: nat)
    | TaskWait(t: nat)
    | Exit(t: nat)
    | EnterBarrier(t: nat)
    | Step(t: nat, victim: nat)

  // ---------- the program ----------

  predicate Tables(s: State) {
    && |s.threads| <= |s.parent|
    && |s.parent| == |s.kinds| == |s.numChildren| == |s.numBlocking| == |s.life|
    && (forall t :: 0 <= t < |s.threads| ==> s.threads[t].stack != [])
    && (forall t, k :: 0 <= t < |s.threads| && 0 <= k < |s.threads[t].stack| ==>
          s.threads[t].stack[k].task < |s.parent|)
    && (forall t, j :: 0 <= t < |s.threads| && 0 <= j < |s.threads[t].queue| ==> s.threads[t].queue[j] < |s.parent|)
    && (forall x :: 0 <= x < |s.parent| ==> s.parent[x] < x && (x < |s.threads| <==> s.parent[x] < 0))
  }

  predicate Init(s: State) {
    && |s.threads| >= 1
    && |s.parent| == |s.kinds| == |s.numChildren| == |s.numBlocking| == |s.life| == |s.threads|
    && (forall t :: 0 <= t < |s.threads| ==>
          && s.threads[t] == Thread([Frame(t, Running, 0)], [], 0, false, 0, 0)
          && s.parent[t] == -1 && s.kinds[t] == Undeferred && s.numChildren[t] == 0 && s.numBlocking[t] == 0
          && s.life[t] == Active(t))
    && s.numPending == 0 && s.count == 0 && s.count2 == 0 && !s.flag && s.toggles == 0
  }

  /** Seen from thread u, another thread's step leaves everything alone but, at most, the head of u's queue. */
  predicate AtMostStolenFrom(s: State, r: State, u: nat)
    requires u < |s.threads| && u < |r.threads|
  {
    var (th, th') := (s.threads[u], r.threads[u]);
    || th' == th
    || (th.queue != [] && th' == th.(queue := th.queue[1..], stolen := th.stolen + 1))
  }

  predicate OthersUndisturbed(s: State, r: State, t: nat) {
    && |r.threads| == |s.threads|
    && forall u :: 0 <= u < |s.threads| && u != t ==> AtMostStolenFrom(s, r, u)
  }

  function Top(th: Thread): Frame
    requires th.stack != []
  {
    th.stack[|th.stack| - 1]
  }

  function SetTop(th: Thread, m: Mode): Thread
    requires th.stack != []
  {
    th.(stack := th.stack[|th.stack| - 1 := Top(th).(mode := m)])
  }

  function SetMode(s: State, t: nat, m: Mode): State
    requires t < |s.threads| && s.threads[t].stack != []
  {
    s.(threads := s.threads[t := SetTop(s.threads[t], m)])
  }

  /** Run x on top of thread t's stack (the call inside task_switch). */
  function Switch(s: State, t: nat, x: nat): State
    requires t < |s.threads| && s.threads[t].stack != [] && x < |s.life|
  {
    var th := s.threads[t];
    s.(threads := s.threads[t := th.(
         stack := th.stack + [Frame(x, Running, th.stolen + |th.queue|)],
         suspended := if Top(th).mode.Bar? then th.suspended else th.suspended + 1)],
       life := s.life[x := Active(t)])
  }

  /** The task on top returns to the one beneath it. */
  function Return(s: State, t: nat): State
    requires t < |s.threads| && |s.threads[t].stack| >= 2 && Top(s.threads[t]).task < |s.life|
  {
    var th := s.threads[t];
    var rest := th.stack[..|th.stack| - 1];
    s.(threads := s.threads[t := th.(
         stack := rest,
         suspended := if rest[|rest| - 1].mode.Bar? then th.suspended else th.suspended - 1)],
       life := s.life[Top(th).task := Done])
  }

  /** Own queue from the tail; failing that, and only with nothing tied suspended, another's from the head. */
  function Take(s: State, t: nat, victim: nat, resume: Mode): State
    requires Tables(s) && t < |s.threads|
  {
    var th := s.threads[t];
    var m := SetMode(s, t, resume);
    if th.queue != [] then
      var x := th.queue[|th.queue| - 1];
      Switch(m.(threads := m.threads[t := m.threads[t].(queue := th.queue[..|th.queue| - 1])]), t, x)
    else if
      && th.suspended == 0 && Top(th).mode.Bar?
      && victim < |s.threads| && victim != t && s.threads[victim].queue != []
    then
      var v := s.threads[victim];
      Switch(m.(threads := m.threads[victim := v.(queue := v.queue[1..], stolen := v.stolen + 1)]), t, v.queue[0])
    else m
  }

  function LeaveBarrier(s: State, t: nat): State
    requires t < |s.threads| && s.threads[t].stack != []
  {
    var th := s.threads[t];
    var f := Top(th).(mode := Running, base := th.stolen + |th.queue|);
    s.(threads := s.threads[t := th.(stack := th.stack[|th.stack| - 1 := f], episode := th.episode + 1)])
  }

  function BarStep(s: State, t: nat, victim: nat): State
    requires Tables(s) && t < |s.threads| && Top(s.threads[t]).mode.Bar?
  {
    match Top(s.threads[t]).mode.pc
    case Arrive => SetMode(s, t, Bar(ReadCount)).(count := s.count + 1)
    case ReadCount => SetMode(s, t, Bar(if s.count < |s.threads| then DrainCheck else ReadPending))
    case ReadPending => SetMode(s, t, Bar(if s.numPending != 0 then DrainCheck else CountOut))
    case DrainCheck => SetMode(s, t, Bar(if s.numPending != 0 then DrainTake else ReadCount))
    case DrainTake => Take(s, t, victim, Bar(DrainCheck))
    case CountOut =>
      SetMode(s, t, Bar(if s.count2 + 1 == |s.threads| then ResetCount else AwaitFlag)).(count2 := s.count2 + 1)
    case ResetCount => SetMode(s, t, Bar(ResetCount2)).(count := 0)
    case ResetCount2 => SetMode(s, t, Bar(Toggle)).(count2 := 0)
    case Toggle => LeaveBarrier(s, t).(flag := !s.threads[t].barFlag, toggles := s.toggles + 1)
    case AwaitFlag => if s.flag != s.threads[t].barFlag then LeaveBarrier(s, t) else s
  }

  function SpawnStep(s: State, t: nat): State
    requires Tables(s) && t < |s.threads| && Top(s.threads[t]).mode.Spawning?
  {
    var f := Top(s.threads[t]);
    var (c, x, stage) := (f.task, f.mode.child, f.mode.stage);
    if x >= |s.life| || stage > 3 then s
    else if stage == 0 then
      SetMode(s, t, Spawning(x, 1)).(numChildren := s.numChildren[c := s.numChildren[c] + 1],
          life := s.life[x := Spawned(t, 1)])
    else if stage == 1 then
      SetMode(s, t, Spawning(x, 2)).(
        numBlocking := if s.kinds[x] == Deferred(true) then s.numBlocking[c := s.numBlocking[c] + 1] else s.numBlocking,
        life := s.life[x := Spawned(t, 2)])
    else if stage == 2 then
      SetMode(s, t, Spawning(x, 3)).(numPending := s.numPending + 1, life := s.life[x := Spawned(t, 3)])
    else
      var m := SetMode(s, t, Running);
      if |s.threads[t].queue| < s.capacity then
        m.(threads := m.threads[t := m.threads[t].(queue := s.threads[t].queue + [x])], life := s.life[x := Queued(t)])
      else Switch(m, t, x)
  }

  /** The tables with a new undeferred task in them, not yet started. */
  function WithUndeferred(s: State, t: nat): State
    requires t < |s.threads| && s.threads[t].stack != []
  {
    s.(parent := s.parent + [Top(s.threads[t]).task], kinds := s.kinds + [Undeferred],
       numChildren := s.numChildren + [0], numBlocking := s.numBlocking + [0], life := s.life + [Done])
  }

  /** Only deferred tasks are counted out. */
  function ExitStep(s: State, t: nat, victim: nat): State
    requires Tables(s) && t < |s.threads|
  {
    var c := Top(s.threads[t]).task;
    var p := s.parent[c];
    if p < 0 || |s.threads[t].stack| < 2 then s
    else match Top(s.threads[t]).mode
      case ExitPending =>
        SetMode(s, t, ExitParent).(
          numPending := if s.kinds[c].Deferred? then s.numPending - 1 else s.numPending,
          life := s.life[c := CountedOut(t)])
      case ExitParent =>
        SetMode(s, t, ExitCheck).(
          numChildren := if s.kinds[c].Deferred? then s.numChildren[p := s.numChildren[p] - 1] else s.numChildren,
          life := s.life[c := Left(t)])
      case ExitCheck => SetMode(s, t, if s.numBlocking[c] != 0 then ExitTake else ExitBlocking)
      case ExitTake => Take(s, t, victim, ExitCheck)
      case ExitBlocking =>
        var blocks := s.kinds[c] == Deferred(true);
        Return(s.(numBlocking := if blocks then s.numBlocking[p := s.numBlocking[p] - 1] else s.numBlocking), t)
      case _ => s
  }

  function Next(s: State, a: Action): State
    requires Tables(s)
  {
    if a.t >= |s.threads| then s
    else
      var (t, top) := (a.t, Top(s.threads[a.t]));
      match a
      case Spawn(_, blocks) =>
        if !top.mode.Running? then s
        else
          var x := |s.parent|;
          SetMode(s, t, Spawning(x, 0)).(
            parent := s.parent + [top.task], kinds := s.kinds + [Deferred(blocks)],
            numChildren := s.numChildren + [0], numBlocking := s.numBlocking + [0],
            life := s.life + [Spawned(t, 0)])
      case RunNow(_) => if top.mode.Running? then Switch(WithUndeferred(s, t), t, |s.parent|) else s
      case TaskWait(_) => if top.mode.Running? then SetMode(s, t, WaitCheck) else s
      case Exit(_) => if top.mode.Running? && |s.threads[t].stack| >= 2 then SetMode(s, t, ExitPending) else s
      case EnterBarrier(_) =>
        if top.mode.Running? && |s.threads[t].stack| == 1 then
          var m := SetMode(s, t, Bar(Arrive));
          m.(threads := m.threads[t := m.threads[t].(barFlag := s.flag)])
        else s
      case Step(_, victim) =>
        match top.mode
        case Running => s
        case Spawning(_, _) => SpawnStep(s, t)
        case WaitCheck => SetMode(s, t, if s.numChildren[top.task] != 0 then WaitTake else Running)
        case WaitTake => Take(s, t, victim, WaitCheck)
        case Bar(_) => BarStep(s, t, victim)
        case _ => ExitStep(s, t, victim)
  }
}
