/** Who is not stuck gets on: the other half of the absence of deadlock. */
module TaskProgress {
  import opened TaskScheduler
  import opened TaskPlacement
  import opened TaskKinds
  import opened TaskCounters
  import opened TaskLives
  import opened TaskRuns

  /** How far the task on top has come in the call it is in; the points of a loop that looks for work count the same. */
  function Rank(m: Mode): nat {
    match m
    case WaitCheck => 0
    case WaitTake => 0
    case ExitPending => 0
    case ExitParent => 1
    case ExitCheck => 2
    case ExitTake => 2
    case ExitBlocking => 3
    case Spawning(_, stage) => stage
    case Bar(Arrive) => 0
    case Bar(ReadCount) => 1
    case Bar(ReadPending) => 1
    case Bar(DrainCheck) => 1
    case Bar(DrainTake) => 1
    case Bar(CountOut) => 2
    case Bar(ResetCount) => 3
    case Bar(ResetCount2) => 4
    case Bar(Toggle) => 5
    case Bar(AwaitFlag) => 5
    case Running => 6
  }

  /** From s to r some task has gone on in its life, or thread t has come further in its call. */
  predicate Advances(s: State, r: State, t: nat)
    requires Tables(s) && Tables(r)
  {
    && t < |s.threads| && t < |r.threads|
    && (r.life != s.life || Rank(Top(r.threads[t]).mode) > Rank(Top(s.threads[t]).mode))
  }

  /** At a point of one of the three loops that look for work. */
  predicate Looking(m: Mode) {
    || m.WaitCheck? || m.WaitTake? || m.ExitCheck? || m.ExitTake?
    || m == Bar(ReadCount) || m == Bar(ReadPending) || m == Bar(DrainCheck) || m == Bar(DrainTake)
  }

  /** How many steps of a loop lie before the one that takes from the queue or, if that is empty, leaves the loop. */
  function StepsBefore(m: Mode, queued: bool): nat {
    match m
    case WaitCheck => if queued then 1 else 0
    case WaitTake => if queued then 0 else 1
    case ExitCheck => if queued then 1 else 0
    case ExitTake => if queued then 0 else 1
    case Bar(ReadCount) => if queued then 3 else 1
    case Bar(ReadPending) => if queued then 2 else 0
    case Bar(DrainCheck) => if queued then 1 else 2
    case Bar(DrainTake) => if queued then 0 else 3
    case _ => 0
  }

  /** What is queued is pending. */
  lemma QueuedIsPending(s: State, t: nat)
    requires Placed(s) && Kinded(s) && Counted(s) && t < |s.threads| && s.threads[t].queue != []
    ensures s.numPending != 0
  {
    var x := s.threads[t].queue[0];
    assert ThreadOk(s, t) && s.life[x] == Queued(t);
    QueuedAreExplicit(s, t, x);
    assert x in Pending(s);
  }

  lemma TakingAdvances(s: State, t: nat, resume: Mode)
    requires Placed(s) && t < |s.threads| && s.threads[t].queue != [] && Tables(Take(s, t, t, resume))
    ensures Take(s, t, t, resume).life != s.life
  {
    var x := s.threads[t].queue[|s.threads[t].queue| - 1];
    assert ThreadOk(s, t) && s.life[x] == Queued(t) && Take(s, t, t, resume).life[x] == Active(t);
  }

  /** One step of a loop from s to r: it does what it waited for, or is one point further with all else the same. */
  predicate LooksOn(s: State, r: State, t: nat)
    requires Tables(s) && Tables(r) && t < |s.threads| && t < |r.threads|
  {
    var (m, m', queued) := (Top(s.threads[t]).mode, Top(r.threads[t]).mode, s.threads[t].queue != []);
    || Advances(s, r, t)
    || (&& r == SetMode(s, t, m') && Looking(m') && Rank(m') == Rank(m) && m'.Bar? == m.Bar?
        && StepsBefore(m', queued) < StepsBefore(m, queued) && !Stuck(r, t))
  }

  lemma TakeLooks(s: State, t: nat, resume: Mode)
    requires Placed(s) && t < |s.threads| && Taking(Top(s.threads[t]).mode, resume) && !Stuck(s, t)
    requires Tables(Take(s, t, t, resume))
    ensures LooksOn(s, Take(s, t, t, resume), t)
  {
    if s.threads[t].queue != [] { TakingAdvances(s, t, resume); }
  }

  lemma WaitLooks(s: State, t: nat)
    requires Tables(s) && t < |s.threads| && Top(s.threads[t]).mode.WaitCheck? && !Stuck(s, t)
    requires Tables(Next(s, Step(t, t)))
    ensures LooksOn(s, Next(s, Step(t, t)), t)
  {
  }

  lemma ExitLooks(s: State, t: nat)
    requires Placed(s) && t < |s.threads| && Top(s.threads[t]).mode.ExitCheck? && !Stuck(s, t)
    requires Tables(ExitStep(s, t, t))
    ensures LooksOn(s, ExitStep(s, t, t), t)
  {
    assert ThreadOk(s, t) && FrameOk(s, t, |s.threads[t].stack| - 1);
  }

  lemma BarLooks(s: State, t: nat, pc: BarPc)
    requires Tables(s) && t < |s.threads| && Top(s.threads[t]).mode == Bar(pc) && !Stuck(s, t)
    requires pc.ReadCount? || pc.ReadPending? || pc.DrainCheck?
    requires s.threads[t].queue != [] ==> s.numPending != 0
    requires Tables(BarStep(s, t, t))
    ensures LooksOn(s, BarStep(s, t, t), t)
  {
  }

  // ---------- the steps that are no part of a loop ----------

  lemma ExitAdvances(s: State, t: nat)
    requires Placed(s) && t < |s.threads| && Tables(ExitStep(s, t, t))
    requires var m := Top(s.threads[t]).mode; m.ExitPending? || m.ExitParent? || m.ExitBlocking?
    ensures Advances(s, ExitStep(s, t, t), t)
  {
    var c := Top(s.threads[t]).task;
    assert ThreadOk(s, t) && FrameOk(s, t, |s.threads[t].stack| - 1);
    assert ExitStep(s, t, t).life[c] != s.life[c];
  }

  lemma SpawnAdvances(s: State, t: nat)
    requires Placed(s) && t < |s.threads| && Top(s.threads[t]).mode.Spawning? && Tables(SpawnStep(s, t))
    ensures Advances(s, SpawnStep(s, t), t)
  {
    var x := Top(s.threads[t]).mode.child;
    assert ThreadOk(s, t) && FrameOk(s, t, |s.threads[t].stack| - 1);
    assert SpawnStep(s, t).life[x] != s.life[x];
  }

  lemma BarAdvances(s: State, t: nat)
    requires Tables(s) && t < |s.threads| && Top(s.threads[t]).mode.Bar? && !Looking(Top(s.threads[t]).mode)
    requires !Stuck(s, t) && Tables(BarStep(s, t, t))
    ensures Advances(s, BarStep(s, t, t), t)
  {
  }

  lemma StepLooks(s: State, t: nat)
    requires Inv(s) && t < |s.threads| && !Top(s.threads[t]).mode.Running? && !Stuck(s, t)
    requires Tables(Next(s, Step(t, t))) && t < |Next(s, Step(t, t)).threads|
    ensures LooksOn(s, Next(s, Step(t, t)), t)
  {
    match Top(s.threads[t]).mode {
      case Spawning(_, _) => SpawnAdvances(s, t);
      case WaitCheck => WaitLooks(s, t);
      case WaitTake => TakeLooks(s, t, WaitCheck);
      case Bar(pc) => BarStepLooks(s, t, pc);
      case _ => ExitStepLooks(s, t);
    }
  }

  lemma ExitStepLooks(s: State, t: nat)
    requires Placed(s) && t < |s.threads| && IsExit(Top(s.threads[t]).mode) && !Stuck(s, t)
    requires Tables(ExitStep(s, t, t)) && t < |ExitStep(s, t, t).threads|
    ensures LooksOn(s, ExitStep(s, t, t), t)
  {
    assert ThreadOk(s, t) && FrameOk(s, t, |s.threads[t].stack| - 1);
    match Top(s.threads[t]).mode {
      case ExitCheck => ExitLooks(s, t);
      case ExitTake => TakeLooks(s, t, ExitCheck);
      case ExitPending => ExitAdvances(s, t);
      case ExitParent => ExitAdvances(s, t);
      case ExitBlocking => ExitAdvances(s, t);
    }
  }

  lemma BarStepLooks(s: State, t: nat, pc: BarPc)
    requires Placed(s) && Kinded(s) && Counted(s) && t < |s.threads| && Top(s.threads[t]).mode == Bar(pc)
    requires !Stuck(s, t) && Tables(BarStep(s, t, t)) && t < |BarStep(s, t, t).threads|
    ensures LooksOn(s, BarStep(s, t, t), t)
  {
    if pc.DrainTake? {
      TakeLooks(s, t, Bar(DrainCheck));
    } else if Looking(Bar(pc)) {
      if s.threads[t].queue != [] { QueuedIsPending(s, t); }
      BarLooks(s, t, pc);
    } else {
      BarAdvances(s, t);
    }
  }

  /** Thread t takes n steps, none of which steals. */
  function Alone(s: State, t: nat, n: nat): (r: State)
    requires Inv(s)
    ensures Inv(r)
    decreases n
  {
    if n == 0 then s
    else
      NextInv(s, Step(t, t));
      Alone(Next(s, Step(t, t)), t, n - 1)
  }

  /** A look that changed nothing but the point of the loop leaves all that follows to be gained. */
  lemma LookedOn(s: State, r: State, q: State, t: nat)
    requires Tables(s) && Tables(r) && Tables(q) && t < |s.threads| && t < |r.threads|
    requires LooksOn(s, r, t) && !Advances(s, r, t) && Advances(r, q, t)
    ensures Advances(s, q, t)
  {
  }

  lemma StillFree(s: State, r: State, t: nat)
    requires Tables(s) && Tables(r) && t < |s.threads| && t < |r.threads|
    requires LooksOn(s, r, t) && !Advances(s, r, t)
    ensures !Stuck(r, t) && !Top(r.threads[t]).mode.Running?
    ensures StepsBefore(Top(r.threads[t]).mode, r.threads[t].queue != [])
         < StepsBefore(Top(s.threads[t]).mode, s.threads[t].queue != [])
  {
  }

  lemma {:induction false} LookAhead(s: State, t: nat, fuel: nat) returns (n: nat)
    requires Inv(s) && t < |s.threads| && !Top(s.threads[t]).mode.Running? && !Stuck(s, t)
    requires fuel == StepsBefore(Top(s.threads[t]).mode, s.threads[t].queue != [])
    ensures n <= fuel + 1 && Advances(s, Alone(s, t, n), t)
    decreases fuel
  {
    var r := Next(s, Step(t, t));
    NextInv(s, Step(t, t));
    TeamStays(s, Step(t, t));
    StepLooks(s, t);
    if Advances(s, r, t) {
      n := 1;
      assert Alone(s, t, 1) == Alone(r, t, 0);
    } else {
      StillFree(s, r, t);
      n := LookAhead(r, t, StepsBefore(Top(r.threads[t]).mode, r.threads[t].queue != []));
      LookedOn(s, r, Alone(r, t, n), t);
      n := n + 1;
      assert Alone(s, t, n) == Alone(r, t, n - 1);
    }
  }

  /**
  A thread that is inside a call and not stuck gets on: within four steps of its own its call has come further or
  some task has gone on in its life.
  */
  lemma NotStuckAdvances(r: State, t: nat) returns (n: nat)
    requires Reachable(r) && Tables(r) && t < |r.threads| && !Top(r.threads[t]).mode.Running? && !Stuck(r, t)
    ensures Inv(r) && n <= 4 && Advances(r, Alone(r, t, n), t)
  {
    ReachableInv(r);
    n := LookAhead(r, t, StepsBefore(Top(r.threads[t]).mode, r.threads[t].queue != []));
  }
}
