/** The life of a task, one step of the scheduler at a time, and the stack beneath the code that runs. */
module TaskLives {
  import opened TaskScheduler
  import opened TaskPlacement
  import opened TaskKinds
  import opened TaskCounters

  /** One step takes a task at most one stage further: created, queued or run at once, run, counted out, left, done. */
  predicate LifeStep(l: Life, l': Life) {
    || l' == l
    || (match l
        case Spawned(t, stage) => l' == Spawned(t, stage + 1) || (stage == 3 && (l' == Queued(t) || l' == Active(t)))
        case Queued(_) => l'.Active?
        case Active(t) => l' == CountedOut(t)
        case CountedOut(t) => l' == Left(t)
        case Left(_) => l' == Done
        case Done => false)
  }

  /** What a new task finds: its creator is the code that runs on top of thread t, and it is being created or runs. */
  predicate Born(s: State, r: State, t: nat, x: nat)
    requires Tables(s) && Tables(r) && t < |s.threads| && x < |r.life|
  {
    && Top(s.threads[t]).mode.Running? && r.parent[x] == Top(s.threads[t]).task
    && (if r.kinds[x].Deferred? then r.life[x] == Spawned(t, 0) else r.life[x] == Active(t))
  }

  /** A step of thread t as seen by the tasks. */
  predicate LivesGoOn(s: State, r: State, t: nat)
    requires Tables(s) && Tables(r) && t < |s.threads|
  {
    && |r.threads| == |s.threads| && s.parent <= r.parent && s.kinds <= r.kinds
    && (forall x :: 0 <= x < |s.life| ==> LifeStep(s.life[x], r.life[x]))
    && (forall x :: |s.life| <= x < |r.life| ==> Born(s, r, t, x))
  }

  /** At most task x goes a stage further. */
  lemma OneGoesOn(s: State, r: State, t: nat, x: nat)
    requires Tables(s) && Tables(r) && t < |s.threads| && OneLifeChanges(s, r, x) && LifeStep(s.life[x], r.life[x])
    ensures LivesGoOn(s, r, t)
  {
  }

  lemma NobodyGoesOn(s: State, r: State, t: nat)
    requires Tables(s) && Tables(r) && t < |s.threads| && |r.threads| == |s.threads|
    requires r.parent == s.parent && r.kinds == s.kinds && r.life == s.life
    ensures LivesGoOn(s, r, t)
  {
  }

  lemma TakeGoesOn(s: State, t: nat, victim: nat, resume: Mode)
    requires Placed(s) && t < |s.threads| && Tables(Take(s, t, victim, resume))
    ensures LivesGoOn(s, Take(s, t, victim, resume), t)
  {
    if Found(s, t, victim) < 0 {
      NobodyGoesOn(s, Take(s, t, victim, resume), t);
    } else {
      FoundIsQueued(s, t, victim);
      OneGoesOn(s, Take(s, t, victim, resume), t, Found(s, t, victim));
    }
  }

  lemma SpawnStepGoesOn(s: State, t: nat)
    requires Placed(s) && Kinded(s) && t < |s.threads| && Top(s.threads[t]).mode.Spawning?
    requires Tables(SpawnStep(s, t))
    ensures LivesGoOn(s, SpawnStep(s, t), t)
  {
    ChildOf(s, t);
    StageGoesOn(s, t, Top(s.threads[t]).mode);
  }

  lemma StageGoesOn(s: State, t: nat, m: Mode)
    requires Tables(s) && t < |s.threads| && m == Top(s.threads[t]).mode && m.Spawning?
    requires |s.threads| <= m.child < |s.life| && s.life[m.child] == Spawned(t, m.stage) && m.stage <= 3
    requires Tables(SpawnStep(s, t))
    ensures LivesGoOn(s, SpawnStep(s, t), t)
  {
    OneGoesOn(s, SpawnStep(s, t), t, m.child);
  }

  lemma ExitStepGoesOn(s: State, t: nat, victim: nat)
    requires Placed(s) && t < |s.threads| && IsExit(Top(s.threads[t]).mode) && Tables(ExitStep(s, t, victim))
    ensures LivesGoOn(s, ExitStep(s, t, victim), t)
  {
    var r := ExitStep(s, t, victim);
    assert ThreadOk(s, t) && FrameOk(s, t, |s.threads[t].stack| - 1);
    match Top(s.threads[t]).mode {
      case ExitPending => OneGoesOn(s, r, t, Top(s.threads[t]).task);
      case ExitParent => OneGoesOn(s, r, t, Top(s.threads[t]).task);
      case ExitCheck => NobodyGoesOn(s, r, t);
      case ExitTake => TakeGoesOn(s, t, victim, ExitCheck);
      case ExitBlocking => OneGoesOn(s, r, t, Top(s.threads[t]).task);
    }
  }

  lemma BarStepGoesOn(s: State, t: nat, victim: nat)
    requires Placed(s) && t < |s.threads| && Top(s.threads[t]).mode.Bar? && Tables(BarStep(s, t, victim))
    ensures LivesGoOn(s, BarStep(s, t, victim), t)
  {
    match Top(s.threads[t]).mode.pc {
      case DrainTake => TakeGoesOn(s, t, victim, Bar(DrainCheck));
      case _ => NobodyGoesOn(s, BarStep(s, t, victim), t);
    }
  }

  lemma StepGoesOn(s: State, t: nat, victim: nat)
    requires Placed(s) && Kinded(s) && t < |s.threads| && Tables(Next(s, Step(t, victim)))
    ensures LivesGoOn(s, Next(s, Step(t, victim)), t)
  {
    match Top(s.threads[t]).mode {
      case Running => NobodyGoesOn(s, s, t);
      case Spawning(_, _) => SpawnStepGoesOn(s, t);
      case WaitCheck => NobodyGoesOn(s, Next(s, Step(t, victim)), t);
      case WaitTake => TakeGoesOn(s, t, victim, WaitCheck);
      case Bar(_) => BarStepGoesOn(s, t, victim);
      case _ => ExitStepGoesOn(s, t, victim);
    }
  }

  lemma RunNowGoesOn(s: State, t: nat)
    requires Tables(s) && t < |s.threads| && Top(s.threads[t]).mode.Running? && Tables(Next(s, RunNow(t)))
    ensures LivesGoOn(s, Next(s, RunNow(t)), t)
  {
    var r := Next(s, RunNow(t));
    assert |r.life| == |s.life| + 1 && r.life[|s.life|] == Active(t);
  }

  lemma SpawnGoesOn(s: State, t: nat, blocks: bool)
    requires Tables(s) && t < |s.threads| && Top(s.threads[t]).mode.Running? && Tables(Next(s, Spawn(t, blocks)))
    ensures LivesGoOn(s, Next(s, Spawn(t, blocks)), t)
  {
    var r := Next(s, Spawn(t, blocks));
    assert |r.life| == |s.life| + 1 && r.life[|s.life|] == Spawned(t, 0);
  }

  /** Every action takes every task at most one stage further in its life, and no task ever goes back. */
  lemma NextLives(s: State, a: Action)
    requires Placed(s) && Kinded(s) && a.t < |s.threads| && Tables(Next(s, a))
    ensures LivesGoOn(s, Next(s, a), a.t)
  {
    match a {
      case Step(t, victim) => StepGoesOn(s, t, victim);
      case Spawn(t, blocks) =>
        if Top(s.threads[t]).mode.Running? { SpawnGoesOn(s, t, blocks); } else { NobodyGoesOn(s, s, t); }
      case RunNow(t) => if Top(s.threads[t]).mode.Running? { RunNowGoesOn(s, t); } else { NobodyGoesOn(s, s, t); }
      case _ => NobodyGoesOn(s, Next(s, a), a.t);
    }
  }

  // ---------- the stacks ----------

  /** The task on top stays where it is, perhaps at another point of its code. */
  predicate TopStays(a: seq<Frame>, b: seq<Frame>) {
    && a != [] && |b| == |a| && b[..|a| - 1] == a[..|a| - 1]
    && b[|a| - 1].task == a[|a| - 1].task
  }

  /** One task more on top, at the beginning of its code. */
  predicate Pushed(a: seq<Frame>, b: seq<Frame>) {
    && |b| == |a| + 1 && TopStays(a, b[..|a|]) && b[|a|].mode.Running?
  }

  /** The task on top has come to the end of its exit and returns. */
  predicate Popped(a: seq<Frame>, b: seq<Frame>) {
    |a| >= 2 && a[|a| - 1].mode.ExitBlocking? && b == a[..|a| - 1]
  }

  predicate StackGoesOn(a: seq<Frame>, b: seq<Frame>) {
    TopStays(a, b) || Pushed(a, b) || Popped(a, b)
  }

  predicate StacksGoOn(s: State, r: State, t: nat)
    requires Tables(s) && t < |s.threads|
  {
    && |r.threads| == |s.threads| && StackGoesOn(s.threads[t].stack, r.threads[t].stack)
    && forall u :: 0 <= u < |s.threads| && u != t ==> r.threads[u].stack == s.threads[u].stack
  }

  lemma PushedOn(a: seq<Frame>, c: seq<Frame>, b: seq<Frame>)
    requires TopStays(a, c) && |b| == |c| + 1 && b[..|c|] == c && b[|c|].mode.Running?
    ensures Pushed(a, b)
  {
  }

  lemma Resumed(th: Thread, m: Mode)
    requires th.stack != []
    ensures TopStays(th.stack, SetTop(th, m).stack)
  {
  }

  lemma TakeStacks(s: State, t: nat, victim: nat, resume: Mode)
    requires Tables(s) && t < |s.threads| && Tables(Take(s, t, victim, resume))
    ensures StacksGoOn(s, Take(s, t, victim, resume), t)
  {
    var r, c := Take(s, t, victim, resume), SetTop(s.threads[t], resume).stack;
    Resumed(s.threads[t], resume);
    if Found(s, t, victim) >= 0 {
      TakePushes(s, r, t, victim, resume);
      PushedOn(s.threads[t].stack, c, r.threads[t].stack);
    }
  }

  lemma TakePushes(s: State, r: State, t: nat, victim: nat, resume: Mode)
    requires Tables(s) && t < |s.threads| && r == Take(s, t, victim, resume) && Found(s, t, victim) >= 0
    ensures var c := SetTop(s.threads[t], resume).stack;
      && |r.threads| == |s.threads| && |r.threads[t].stack| == |c| + 1 && r.threads[t].stack[..|c|] == c
      && r.threads[t].stack[|c|].mode.Running?
      && forall u :: 0 <= u < |s.threads| && u != t ==> r.threads[u].stack == s.threads[u].stack
  {
  }

  lemma SpawnStepStacks(s: State, t: nat)
    requires Tables(s) && t < |s.threads| && Top(s.threads[t]).mode.Spawning?
    ensures StacksGoOn(s, SpawnStep(s, t), t)
  {
    var (a, b) := (s.threads[t].stack, SpawnStep(s, t).threads[t].stack);
    assert Pushed(a, b) || TopStays(a, b);
  }

  lemma ExitStepStacks(s: State, t: nat, victim: nat)
    requires Placed(s) && t < |s.threads| && IsExit(Top(s.threads[t]).mode) && Tables(ExitStep(s, t, victim))
    ensures StacksGoOn(s, ExitStep(s, t, victim), t)
  {
    assert ThreadOk(s, t) && FrameOk(s, t, |s.threads[t].stack| - 1);
    var (a, b) := (s.threads[t].stack, ExitStep(s, t, victim).threads[t].stack);
    match Top(s.threads[t]).mode {
      case ExitPending => assert TopStays(a, b);
      case ExitParent => assert TopStays(a, b);
      case ExitCheck => assert TopStays(a, b);
      case ExitTake => TakeStacks(s, t, victim, ExitCheck);
      case ExitBlocking => assert Popped(a, b);
    }
  }

  lemma BarStepStacks(s: State, t: nat, victim: nat)
    requires Tables(s) && t < |s.threads| && Top(s.threads[t]).mode.Bar? && Tables(BarStep(s, t, victim))
    ensures StacksGoOn(s, BarStep(s, t, victim), t)
  {
    match Top(s.threads[t]).mode.pc {
      case DrainTake => TakeStacks(s, t, victim, Bar(DrainCheck));
      case _ => assert TopStays(s.threads[t].stack, BarStep(s, t, victim).threads[t].stack);
    }
  }

  lemma StepStacks(s: State, t: nat, victim: nat)
    requires Placed(s) && t < |s.threads| && Tables(Next(s, Step(t, victim)))
    ensures StacksGoOn(s, Next(s, Step(t, victim)), t)
  {
    match Top(s.threads[t]).mode {
      case Running => assert TopStays(s.threads[t].stack, s.threads[t].stack);
      case Spawning(_, _) => SpawnStepStacks(s, t);
      case WaitCheck => assert TopStays(s.threads[t].stack, Next(s, Step(t, victim)).threads[t].stack);
      case WaitTake => TakeStacks(s, t, victim, WaitCheck);
      case Bar(_) => BarStepStacks(s, t, victim);
      case _ => ExitStepStacks(s, t, victim);
    }
  }

  /**
  Every action leaves the other stacks alone, and what is beneath the top of the acting thread's; the task on top
  goes only by returning at the end of its exit.
  */
  lemma NextStacks(s: State, a: Action)
    requires Placed(s) && a.t < |s.threads| && Tables(Next(s, a))
    ensures StacksGoOn(s, Next(s, a), a.t)
  {
    match a {
      case Step(t, victim) => StepStacks(s, t, victim);
      case RunNow(t) => RunNowStacks(s, t);
      case _ => assert TopStays(s.threads[a.t].stack, Next(s, a).threads[a.t].stack);
    }
  }

  lemma RunNowStacks(s: State, t: nat)
    requires Tables(s) && t < |s.threads|
    ensures StacksGoOn(s, Next(s, RunNow(t)), t)
  {
    var (a, b) := (s.threads[t].stack, Next(s, RunNow(t)).threads[t].stack);
    if Top(s.threads[t]).mode.Running? {
      assert Pushed(a, b);
    } else {
      assert TopStays(a, b);
    }
  }

  lemma TeamStays(s: State, a: Action)
    requires Placed(s) && a.t < |s.threads| && Tables(Next(s, a))
    ensures |Next(s, a).threads| == |s.threads|
  {
    NextStacks(s, a);
  }
}
