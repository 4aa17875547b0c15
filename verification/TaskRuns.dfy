/** Every run of the task scheduler: the invariants put together, and what follows from them. */
module TaskRuns {
  import opened Counting
  import opened TaskScheduler
  import opened TaskPlacement
  import opened TaskKinds
  import opened TaskCounters
  import opened TaskBarrier
  import opened TiedTasks

  predicate Inv(s: State) {
    Placed(s) && Kinded(s) && Counted(s) && BarInv(s) && FrameTrees(s) && Ready(s)
  }

  // ---------- the tree, step by step ----------

  /** A step that only changes modes, lives and counters. */
  lemma ModesKeepTrees(s: State, r: State)
    requires Tables(s) && Tables(r) && FrameTrees(s) && |r.threads| == |s.threads| && |r.life| == |s.life|
    requires forall u :: 0 <= u < |s.threads| ==> SameShape(s, r, u)
    ensures FrameTrees(r)
  {
    forall u, k | 0 <= u < |s.threads| && 0 <= k < |r.threads[u].stack| ensures FrameTree(r, u, k) {
      assert SameShape(s, r, u);
      SameShapeTree(s, r, u, k);
    }
  }

  lemma SamePlacesTrees(s: State, r: State)
    requires Tables(s) && Tables(r) && FrameTrees(s) && SamePlaces(s, r)
    ensures FrameTrees(r)
  {
    forall u, k | 0 <= u < |s.threads| && 0 <= k < |r.threads[u].stack| ensures FrameTree(r, u, k) {
      assert SameShape(s, r, u);
      SameShapeTree(s, r, u, k);
    }
  }

  lemma SpawnTrees(s: State, t: nat, blocks: bool)
    requires Placed(s) && FrameTrees(s) && t < |s.threads| && Top(s.threads[t]).mode.Running?
    requires Tables(Next(s, Spawn(t, blocks)))
    ensures FrameTrees(Next(s, Spawn(t, blocks)))
  {
    var r, top := Next(s, Spawn(t, blocks)), |s.threads[t].stack| - 1;
    assert ThreadOk(s, t) && FrameOk(s, t, top);
    forall u, k | 0 <= u < |s.threads| && 0 <= k < |r.threads[u].stack| ensures FrameTree(r, u, k) {
      assert ThreadOk(s, u) && FrameOk(s, u, k);
      if s.threads[u].stack[k].task == s.threads[t].stack[top].task {
        assert u == t && k == top;
      }
      SameShapeTree(s, r, u, k);
    }
  }

  /** The task on top of t is on no other stack, so its new child is nobody else's concern. */
  lemma NewChildExposed(s: State, t: nat, x: nat)
    requires Placed(s) && t < |s.threads| && x < |s.life| && s.parent[x] == Top(s.threads[t]).task
    ensures ParentExposed(s, t, x)
  {
    assert ThreadOk(s, t) && FrameOk(s, t, |s.threads[t].stack| - 1);
    forall u, k | 0 <= u < |s.threads| && u != t && 0 <= k < |s.threads[u].stack|
      ensures s.threads[u].stack[k].task != s.parent[x]
    {
      assert ThreadOk(s, u) && FrameOk(s, u, k);
    }
  }

  lemma NewChildAllowed(s: State, t: nat, x: nat)
    requires Placed(s) && FrameTrees(s) && t < |s.threads| && x < |s.life| && s.parent[x] == Top(s.threads[t]).task
    ensures Allowed(s, t, x)
  {
    forall k | 0 <= k < |s.threads[t].stack| && !s.threads[t].stack[k].mode.Bar?
      ensures Descends(s.parent, x, s.threads[t].stack[k].task)
    {
      assert FrameTree(s, t, k);
    }
  }

  /** An undeferred task is its creator's child, too. */
  lemma RunNowTrees(s: State, t: nat)
    requires Placed(s) && FrameTrees(s) && t < |s.threads| && Top(s.threads[t]).mode.Running?
    requires Tables(Next(s, RunNow(t)))
    ensures FrameTrees(Next(s, RunNow(t)))
  {
    var m, x := WithUndeferred(s, t), |s.parent|;
    WithUndeferredPlaced(s, t);
    WithUndeferredTrees(s, t);
    NewChildExposed(m, t, x);
    NewChildAllowed(m, t, x);
    SwitchTree(m, t, x);
  }

  lemma WithUndeferredTrees(s: State, t: nat)
    requires Tables(s) && FrameTrees(s) && t < |s.threads| && Tables(WithUndeferred(s, t))
    ensures FrameTrees(WithUndeferred(s, t))
  {
    var m := WithUndeferred(s, t);
    forall u, k | 0 <= u < |s.threads| && 0 <= k < |m.threads[u].stack| ensures FrameTree(m, u, k) {
      assert FrameTree(s, u, k) && SameShape(s, m, u);
      SameShapeTree(s, m, u, k);
    }
  }

  lemma PutTrees(s: State, t: nat)
    requires Placed(s) && FrameTrees(s) && t < |s.threads| && Top(s.threads[t]).mode.Spawning?
    requires Top(s.threads[t]).mode.stage == 3
    requires Placed(SpawnStep(s, t))
    ensures FrameTrees(SpawnStep(s, t))
  {
    var x := Top(s.threads[t]).mode.child;
    assert ThreadOk(s, t) && FrameOk(s, t, |s.threads[t].stack| - 1);
    PutIsMoves(s, t);
    ReleasePlaced(s, t, x);
    var m := Release(s, t, x);
    ModesKeepTrees(s, m);
    NewChildExposed(m, t, x);
    NewChildAllowed(m, t, x);
    NoChildrenYet(s, x);
    if |s.threads[t].queue| < s.capacity {
      EnqueueTree(m, t, x);
    } else {
      SwitchTree(m, t, x);
    }
  }

  lemma SpawnStepTrees(s: State, t: nat)
    requires Placed(s) && FrameTrees(s) && t < |s.threads| && Top(s.threads[t]).mode.Spawning?
    requires Placed(SpawnStep(s, t))
    ensures FrameTrees(SpawnStep(s, t))
  {
    assert ThreadOk(s, t) && FrameOk(s, t, |s.threads[t].stack| - 1);
    if Top(s.threads[t]).mode.stage == 3 {
      PutTrees(s, t);
    } else {
      StageTrees(s, t);
    }
  }

  lemma StageTrees(s: State, t: nat)
    requires Placed(s) && FrameTrees(s) && t < |s.threads| && Top(s.threads[t]).mode.Spawning?
    requires Top(s.threads[t]).mode.stage != 3 && Tables(SpawnStep(s, t))
    ensures FrameTrees(SpawnStep(s, t))
  {
    assert ThreadOk(s, t) && FrameOk(s, t, |s.threads[t].stack| - 1);
    var m := Top(s.threads[t]).mode;
    var r := Restage(s, t, m.child, m.stage + 1);
    ModesKeepTrees(s, r);
    RestagedSame(s, t);
    SamePlacesTrees(r, SpawnStep(s, t));
  }

  lemma QueuedNotOnStack(s: State, u: nat, x: nat)
    requires Placed(s) && u < |s.threads| && x < |s.life| && s.life[x].Queued?
    ensures forall l :: 0 <= l < |s.threads[u].stack| ==> s.threads[u].stack[l].task != x
  {
    forall l | 0 <= l < |s.threads[u].stack| ensures s.threads[u].stack[l].task != x {
      assert ThreadOk(s, u) && FrameOk(s, u, l);
    }
  }

  /** What a thread finds in its own queue descends from everything it has suspended. */
  lemma OwnTailAllowed(s: State, t: nat)
    requires Inv(s) && t < |s.threads| && s.threads[t].queue != []
    requires Top(s.threads[t]).mode.WaitTake? || Top(s.threads[t]).mode.ExitTake?
        || Top(s.threads[t]).mode == Bar(DrainTake)
    ensures var x := s.threads[t].queue[|s.threads[t].queue| - 1]; Allowed(s, t, x) && ParentExposed(s, t, x)
    ensures forall k :: 0 <= k < |s.threads[t].stack| && !s.threads[t].stack[k].mode.Bar? ==>
      s.threads[t].stack[k].base < s.threads[t].stolen + |s.threads[t].queue|
  {
    var th, x := s.threads[t], s.threads[t].queue[|s.threads[t].queue| - 1];
    var top := |th.stack| - 1;
    assert ThreadOk(s, t) && FrameOk(s, t, top) && TakeReady(s, t);
    forall k | 0 <= k < |th.stack| && !th.stack[k].mode.Bar?
      ensures th.stack[k].base < th.stolen + |th.queue| && Descends(s.parent, x, th.stack[k].task)
    {
      assert FrameTree(s, t, k);
    }
    forall u, k | 0 <= u < |s.threads| && u != t && 0 <= k < |s.threads[u].stack|
        && s.threads[u].stack[k].task == s.parent[x]
      && !s.threads[u].stack[k].mode.Bar?
      ensures s.threads[u].stack[k].base <= s.threads[u].stolen
    {
      assert FrameTree(s, u, k) && ThreadOk(s, u) && FrameOk(s, u, k);
      assert Accounted(s, u, k, x);
      QueuedNotOnStack(s, u, x);
    }
  }

  /** A stolen task was the oldest of its queue, so its parent has nothing older left there. */
  lemma StolenHeadExposed(s: State, t: nat, v: nat)
    requires Inv(s) && t < |s.threads| && v < |s.threads| && v != t && s.threads[v].queue != []
    ensures ParentExposed(s, t, s.threads[v].queue[0])
  {
    var x := s.threads[v].queue[0];
    forall u, k | 0 <= u < |s.threads| && u != t && 0 <= k < |s.threads[u].stack|
        && s.threads[u].stack[k].task == s.parent[x]
      && !s.threads[u].stack[k].mode.Bar?
      ensures s.threads[u].stack[k].base <= s.threads[u].stolen
    {
      assert ThreadOk(s, v) && s.life[x] == Queued(v);
      assert FrameTree(s, u, k) && ThreadOk(s, u) && FrameOk(s, u, k);
      assert Accounted(s, u, k, x);
      QueuedNotOnStack(s, u, x);
    }
  }

  lemma ResumeTrees(s: State, t: nat, resume: Mode)
    requires Placed(s) && FrameTrees(s) && t < |s.threads| && Taking(Top(s.threads[t]).mode, resume)
    ensures Placed(Retop(s, t, resume)) && FrameTrees(Retop(s, t, resume))
    ensures Retop(s, t, resume) == SetMode(s, t, resume)
  {
    assert ThreadOk(s, t) && FrameOk(s, t, |s.threads[t].stack| - 1);
    RetopPlaced(s, t, resume);
    ResumeKeepsLife(s, t, resume);
    ModesKeepTrees(s, Retop(s, t, resume));
  }

  lemma TakeTrees(s: State, t: nat, victim: nat, resume: Mode)
    requires Inv(s) && t < |s.threads| && Taking(Top(s.threads[t]).mode, resume)
    requires Placed(Take(s, t, victim, resume))
    ensures FrameTrees(Take(s, t, victim, resume))
    ensures Found(s, t, victim) >= 0 ==> Allowed(s, t, Found(s, t, victim))
  {
    var x, m := Found(s, t, victim), Retop(s, t, resume);
    ResumeTrees(s, t, resume);
    TakeIsMoves(s, t, victim, resume);
    FetchedPlaced(s, t, victim, resume);
    if x >= 0 {
      FetchedTrees(s, t, victim, resume);
      SwitchTree(Fetched(s, t, victim, resume), t, x);
    }
  }

  /** What a task fetched must satisfy in the state in which it has left its queue. */
  predicate MayRun(s: State, f: State, t: nat, x: nat)
    requires Tables(s) && Tables(f) && t < |s.threads| && t < |f.threads|
  {
    && FrameTrees(f) && x < |f.parent| && x < |s.parent| && Allowed(s, t, x) && Allowed(f, t, x)
    && ParentExposed(f, t, x)
    && (forall y :: 0 <= y < |f.life| ==> f.parent[y] != x)
  }

  lemma FetchedTrees(s: State, t: nat, victim: nat, resume: Mode)
    requires Inv(s) && t < |s.threads| && Taking(Top(s.threads[t]).mode, resume)
    requires Found(s, t, victim) >= 0 && Placed(Retop(s, t, resume)) && Placed(Fetched(s, t, victim, resume))
    requires FrameTrees(Retop(s, t, resume)) && Retop(s, t, resume) == SetMode(s, t, resume)
    ensures MayRun(s, Fetched(s, t, victim, resume), t, Found(s, t, victim))
  {
    if s.threads[t].queue != [] {
      OwnTailAllowed(s, t);
      OwnFetchedTrees(s, t, SetMode(s, t, resume), resume);
    } else {
      assert ThreadOk(s, t) && FrameOk(s, t, |s.threads[t].stack| - 1);
      StolenHeadExposed(s, t, victim);
      StolenTrees(s, t, victim, SetMode(s, t, resume), resume);
    }
  }

  lemma OwnFetchedTrees(s: State, t: nat, m: State, resume: Mode)
    requires Placed(s) && t < |s.threads| && s.threads[t].queue != []
    requires m == SetMode(s, t, resume) && Placed(m) && FrameTrees(m) && Top(s.threads[t]).mode.Bar? == resume.Bar?
    requires var x := s.threads[t].queue[|s.threads[t].queue| - 1]; Allowed(s, t, x) && ParentExposed(s, t, x)
    requires forall k :: 0 <= k < |s.threads[t].stack| && !s.threads[t].stack[k].mode.Bar? ==>
      s.threads[t].stack[k].base < s.threads[t].stolen + |s.threads[t].queue|
    ensures Tables(TakeTail(m, t)) && MayRun(s, TakeTail(m, t), t, s.threads[t].queue[|s.threads[t].queue| - 1])
  {
    assert ThreadOk(s, t);
    TakeTailTree(m, t);
    NoChildrenYet(s, s.threads[t].queue[|s.threads[t].queue| - 1]);
  }

  lemma StolenTrees(s: State, t: nat, v: nat, m: State, resume: Mode)
    requires Placed(s) && t < |s.threads| && v < |s.threads| && v != t && s.threads[v].queue != []
    requires |s.threads[t].stack| == 1 && Top(s.threads[t]).mode.Bar? && resume.Bar?
    requires m == SetMode(s, t, resume) && Placed(m) && FrameTrees(m)
    requires ParentExposed(s, t, s.threads[v].queue[0])
    ensures Tables(TakeHead(m, v)) && MayRun(s, TakeHead(m, v), t, s.threads[v].queue[0])
  {
    assert ThreadOk(s, v);
    TakeHeadTree(m, v);
    NoChildrenYet(s, s.threads[v].queue[0]);
  }

  lemma ReturnTrees(s: State, t: nat, victim: nat)
    requires Placed(s) && FrameTrees(s) && t < |s.threads| && Top(s.threads[t]).mode.ExitBlocking?
    requires Tables(ExitStep(s, t, victim))
    ensures FrameTrees(ExitStep(s, t, victim))
  {
    assert ThreadOk(s, t) && FrameOk(s, t, |s.threads[t].stack| - 1);
    ReturnTables(s, t);
    ReturnTree(s, t);
    ExitReturnSame(s, t, victim);
    SamePlacesTrees(Return(s, t), ExitStep(s, t, victim));
  }

  lemma ExitStepTrees(s: State, t: nat, victim: nat)
    requires Inv(s) && t < |s.threads| && IsExit(Top(s.threads[t]).mode) && Placed(ExitStep(s, t, victim))
    ensures FrameTrees(ExitStep(s, t, victim))
  {
    assert ThreadOk(s, t) && FrameOk(s, t, |s.threads[t].stack| - 1);
    match Top(s.threads[t]).mode {
      case ExitTake => TakeTrees(s, t, victim, ExitCheck);
      case ExitBlocking => ReturnTrees(s, t, victim);
      case _ => ExitModeTrees(s, t, victim);
    }
  }

  lemma ExitModeTrees(s: State, t: nat, victim: nat)
    requires Placed(s) && FrameTrees(s) && t < |s.threads| && Tables(ExitStep(s, t, victim))
    requires Top(s.threads[t]).mode.ExitPending? || Top(s.threads[t]).mode.ExitParent?
        || Top(s.threads[t]).mode.ExitCheck?
    ensures FrameTrees(ExitStep(s, t, victim))
  {
    assert ThreadOk(s, t) && FrameOk(s, t, |s.threads[t].stack| - 1);
    ModesKeepTrees(s, ExitStep(s, t, victim));
  }

  /** With an empty queue nothing is older than the implicit task that leaves a barrier. */
  lemma LeaveTrees(s: State, t: nat, r: State)
    requires Inv(s) && t < |s.threads| && Top(s.threads[t]).mode.Bar? && IsPast(PhaseOf(s.threads[t]))
    requires SamePlaces(LeaveBarrier(s, t), r) && Placed(r)
    ensures FrameTrees(r)
  {
    assert BarThread(s, t);
    forall u, k | 0 <= u < |r.threads| && 0 <= k < |r.threads[u].stack| ensures FrameTree(r, u, k) {
      if u != t {
        assert FrameTree(s, u, k) && SameShape(s, r, u);
        SameShapeTree(s, r, u, k);
      }
    }
  }

  lemma BarModeTrees(s: State, t: nat, m: Mode, r: State)
    requires Placed(s) && FrameTrees(s) && t < |s.threads| && Top(s.threads[t]).mode.Bar? && m.Bar?
    requires SamePlaces(SetMode(s, t, m), r) && Placed(r)
    ensures FrameTrees(r)
  {
    ModesKeepTrees(s, r);
  }

  lemma BarStepTrees(s: State, t: nat, victim: nat)
    requires Inv(s) && t < |s.threads| && Top(s.threads[t]).mode.Bar? && Placed(BarStep(s, t, victim))
    ensures FrameTrees(BarStep(s, t, victim))
  {
    var r := BarStep(s, t, victim);
    assert ThreadOk(s, t) && FrameOk(s, t, |s.threads[t].stack| - 1);
    match Top(s.threads[t]).mode.pc {
      case DrainTake => TakeTrees(s, t, victim, Bar(DrainCheck));
      case Toggle => LeaveTrees(s, t, r);
      case AwaitFlag => if s.flag != s.threads[t].barFlag { LeaveTrees(s, t, r); }
      case _ => BarModeTrees(s, t, Top(r.threads[t]).mode, r);
    }
  }

  lemma StepTrees(s: State, t: nat, victim: nat)
    requires Inv(s) && t < |s.threads| && Placed(Next(s, Step(t, victim)))
    ensures FrameTrees(Next(s, Step(t, victim)))
  {
    match Top(s.threads[t]).mode {
      case Running =>
      case Spawning(_, _) => SpawnStepTrees(s, t);
      case WaitCheck => ModesKeepTrees(s, Next(s, Step(t, victim)));
      case WaitTake => TakeTrees(s, t, victim, WaitCheck);
      case Bar(_) => BarStepTrees(s, t, victim);
      case _ => ExitStepTrees(s, t, victim);
    }
  }

  lemma NextTrees(s: State, a: Action)
    requires Inv(s) && Placed(Next(s, a))
    ensures FrameTrees(Next(s, a))
  {
    if a.t < |s.threads| {
      if a.Step? {
        StepTrees(s, a.t, a.victim);
      } else if a.Spawn? && Top(s.threads[a.t]).mode.Running? {
        SpawnTrees(s, a.t, a.blocks);
      } else if a.RunNow? && Top(s.threads[a.t]).mode.Running? {
        RunNowTrees(s, a.t);
      } else {
        CallTrees(s, a);
      }
    }
  }

  /** The start of a taskwait, an exit or a barrier. */
  lemma CallTrees(s: State, a: Action)
    requires Tables(s) && FrameTrees(s) && a.t < |s.threads| && !a.Step? && Tables(Next(s, a))
    requires a.Spawn? || a.RunNow? ==> !Top(s.threads[a.t]).mode.Running?
    ensures FrameTrees(Next(s, a))
  {
    ModesKeepTrees(s, Next(s, a));
  }

  // ---------- readiness ----------

  /** Another thread's steps can take from u's queue but not touch its stack. */
  lemma StaysReady(s: State, r: State, u: nat)
    requires Tables(s) && Tables(r) && u < |s.threads| && u < |r.threads| && TakeReady(s, u)
    requires r.threads[u].stack == s.threads[u].stack && r.threads[u].stolen >= s.threads[u].stolen
    requires r.threads[u].stolen + |r.threads[u].queue| == s.threads[u].stolen + |s.threads[u].queue|
    ensures TakeReady(r, u)
  {
  }

  /** A counter that is not zero means an unfinished child, in the queue or stolen. */
  lemma CheckMakesReady(s: State, t: nat, x: nat, m: Mode)
    requires Inv(s) && t < |s.threads| && x < |s.life| && !s.life[x].Done? && s.parent[x] == Top(s.threads[t]).task
    requires Top(s.threads[t]).mode.WaitCheck? || Top(s.threads[t]).mode.ExitCheck?
    requires Tables(SetMode(s, t, m))
    ensures TakeReady(SetMode(s, t, m), t)
  {
    var k := |s.threads[t].stack| - 1;
    assert FrameTree(s, t, k) && Accounted(s, t, k, x);
  }

  lemma WaitCheckReady(s: State, t: nat, victim: nat)
    requires Inv(s) && t < |s.threads| && Tables(Next(s, Step(t, victim))) && Top(s.threads[t]).mode.WaitCheck?
    ensures OthersUndisturbed(s, Next(s, Step(t, victim)), t) && TakeReady(Next(s, Step(t, victim)), t)
  {
    var c := Top(s.threads[t]).task;
    if s.numChildren[c] != 0 {
      assert Next(s, Step(t, victim)) == SetMode(s, t, WaitTake);
      var x := HasChild(s, c);
      CheckMakesReady(s, t, x, WaitTake);
    } else {
      assert Next(s, Step(t, victim)) == SetMode(s, t, Running);
    }
  }

  lemma ExitCheckReady(s: State, t: nat, victim: nat)
    requires Inv(s) && t < |s.threads| && Tables(Next(s, Step(t, victim))) && Top(s.threads[t]).mode.ExitCheck?
    ensures OthersUndisturbed(s, Next(s, Step(t, victim)), t) && TakeReady(Next(s, Step(t, victim)), t)
  {
    var c := Top(s.threads[t]).task;
    assert ThreadOk(s, t) && FrameOk(s, t, |s.threads[t].stack| - 1);
    if s.numBlocking[c] != 0 {
      var x := HasBlocking(s, c);
      CheckMakesReady(s, t, x, ExitTake);
    }
  }

  predicate TakesNext(s: State, t: nat)
    requires t < |s.threads| && s.threads[t].stack != []
  {
    Top(s.threads[t]).mode.WaitTake? || Top(s.threads[t]).mode.ExitTake?
  }

  lemma TakeThenNot(s: State, t: nat, victim: nat, resume: Mode)
    requires Tables(s) && t < |s.threads| && Taking(Top(s.threads[t]).mode, resume)
    requires Tables(Take(s, t, victim, resume))
    ensures OthersUndisturbed(s, Take(s, t, victim, resume), t) && !TakesNext(Take(s, t, victim, resume), t)
  {
  }

  lemma BarThenNot(s: State, t: nat, victim: nat)
    requires Tables(s) && t < |s.threads| && Top(s.threads[t]).mode.Bar? && Tables(BarStep(s, t, victim))
    ensures OthersUndisturbed(s, BarStep(s, t, victim), t) && !TakesNext(BarStep(s, t, victim), t)
  {
    match Top(s.threads[t]).mode.pc {
      case DrainTake => TakeThenNot(s, t, victim, Bar(DrainCheck));
      case _ =>
    }
  }

  lemma SpawnThenNot(s: State, t: nat)
    requires Tables(s) && t < |s.threads| && Top(s.threads[t]).mode.Spawning? && Tables(SpawnStep(s, t))
    ensures OthersUndisturbed(s, SpawnStep(s, t), t) && !TakesNext(SpawnStep(s, t), t)
  {
    if Top(s.threads[t]).mode.stage == 3 { PutThenNot(s, t); }
  }

  lemma PutThenNot(s: State, t: nat)
    requires Tables(s) && t < |s.threads| && Top(s.threads[t]).mode.Spawning? && Tables(SpawnStep(s, t))
    requires Top(s.threads[t]).mode.stage == 3
    ensures OthersUndisturbed(s, SpawnStep(s, t), t)
    ensures Top(SpawnStep(s, t).threads[t]).mode == Running || SpawnStep(s, t) == s
  {
  }

  lemma ReturnThenNot(s: State, t: nat)
    requires Placed(s) && t < |s.threads| && |s.threads[t].stack| >= 2
    ensures !TakesNext(Return(s, t), t)
  {
    assert ThreadOk(s, t) && FrameOk(s, t, |s.threads[t].stack| - 2);
  }

  lemma ExitMoveReady(s: State, t: nat, victim: nat)
    requires Placed(s) && t < |s.threads| && |s.threads[t].stack| >= 2
    requires Top(s.threads[t]).mode.ExitPending? || Top(s.threads[t]).mode.ExitParent?
    requires Tables(ExitStep(s, t, victim))
    ensures !TakesNext(ExitStep(s, t, victim), t) && OthersUndisturbed(s, ExitStep(s, t, victim), t)
  {
  }

  lemma ExitReturnReady(s: State, t: nat, victim: nat)
    requires Placed(s) && t < |s.threads| && |s.threads[t].stack| >= 2 && Top(s.threads[t]).mode.ExitBlocking?
    requires Tables(ExitStep(s, t, victim))
    ensures !TakesNext(ExitStep(s, t, victim), t) && OthersUndisturbed(s, ExitStep(s, t, victim), t)
  {
    ReturnThenNot(s, t);
  }

  lemma ExitThenReady(s: State, t: nat, victim: nat)
    requires Inv(s) && t < |s.threads| && IsExit(Top(s.threads[t]).mode) && Placed(ExitStep(s, t, victim))
    ensures OthersUndisturbed(s, ExitStep(s, t, victim), t) && TakeReady(ExitStep(s, t, victim), t)
  {
    assert ThreadOk(s, t) && FrameOk(s, t, |s.threads[t].stack| - 1);
    match Top(s.threads[t]).mode {
      case ExitPending => ExitMoveReady(s, t, victim);
      case ExitParent => ExitMoveReady(s, t, victim);
      case ExitCheck => ExitCheckReady(s, t, victim);
      case ExitTake => TakeThenNot(s, t, victim, ExitCheck);
      case ExitBlocking => ExitReturnReady(s, t, victim);
    }
  }

  /** A step disturbs no other thread beyond its queue's head, and readies its own for the next take. */
  lemma StepReady(s: State, t: nat, victim: nat)
    requires Inv(s) && t < |s.threads| && Placed(Next(s, Step(t, victim)))
    ensures OthersUndisturbed(s, Next(s, Step(t, victim)), t) && TakeReady(Next(s, Step(t, victim)), t)
  {
    match Top(s.threads[t]).mode {
      case Running =>
      case Spawning(_, _) => SpawnThenNot(s, t);
      case WaitCheck => WaitCheckReady(s, t, victim);
      case WaitTake => TakeThenNot(s, t, victim, WaitCheck);
      case Bar(_) => BarThenNot(s, t, victim);
      case _ => ExitThenReady(s, t, victim);
    }
  }

  lemma CallReady(s: State, a: Action)
    requires Tables(s) && Tables(Next(s, a)) && (a.t < |s.threads| ==> !a.Step? && TakeReady(s, a.t))
    ensures OthersUndisturbed(s, Next(s, a), a.t) && (a.t < |s.threads| ==> TakeReady(Next(s, a), a.t))
  {
  }

  lemma NextReady(s: State, a: Action)
    requires Inv(s) && Placed(Next(s, a))
    ensures Ready(Next(s, a))
  {
    var r := Next(s, a);
    if a.t < |s.threads| && a.Step? {
      StepReady(s, a.t, a.victim);
    } else {
      CallReady(s, a);
    }
    forall u | 0 <= u < |r.threads| ensures TakeReady(r, u) {
      assert TakeReady(s, u);
      if a.t >= |s.threads| {
        assert r == s;
      } else if u != a.t {
        assert AtMostStolenFrom(s, r, u);
        StaysReady(s, r, u);
      }
    }
  }

  // ---------- the barrier, step by step ----------

  lemma BarStepBar(s: State, t: nat, victim: nat)
    requires Inv(s) && t < |s.threads| && Top(s.threads[t]).mode.Bar? && Placed(BarStep(s, t, victim))
    ensures BarInv(BarStep(s, t, victim))
  {
    var r := BarStep(s, t, victim);
    assert ThreadOk(s, t) && FrameOk(s, t, |s.threads[t].stack| - 1);
    match Top(s.threads[t]).mode.pc {
      case Arrive => ArriveBar(s, t, r);
      case ReadCount => ReadCountBar(s, t, r);
      case ReadPending => ReadPendingBar(s, t, r);
      case DrainCheck => LoopBar(s, t, r, if s.numPending != 0 then DrainTake else ReadCount);
      case DrainTake => TakeBar(s, t, victim, Bar(DrainCheck));
      case _ => OutStepBar(s, t, victim);
    }
  }

  /** Past the draining loop. */
  lemma OutStepBar(s: State, t: nat, victim: nat)
    requires Tables(s) && BarInv(s) && t < |s.threads| && IsPast(PhaseOf(s.threads[t])) && |s.threads[t].stack| == 1
    requires Tables(BarStep(s, t, victim))
    ensures BarInv(BarStep(s, t, victim))
  {
    var r := BarStep(s, t, victim);
    match Top(s.threads[t]).mode.pc {
      case CountOut => CountOutBar(s, t, r);
      case ResetCount => ResetBar(s, t, r);
      case ResetCount2 => ResetBar(s, t, r);
      case Toggle => ToggleBar(s, t, r);
      case AwaitFlag => if s.flag != s.threads[t].barFlag { AwaitBar(s, t, r); }
    }
  }

  lemma LoopBar(s: State, t: nat, r: State, pc: BarPc)
    requires Tables(s) && BarInv(s) && t < |s.threads| && PhaseOf(s.threads[t]).Looping? && |s.threads[t].stack| == 1
    requires (pc.DrainCheck? || pc.DrainTake? || pc.ReadCount?) && r == SetMode(s, t, Bar(pc)) && Tables(r)
    ensures BarInv(r)
  {
    assert BarThread(s, t);
    AdvanceBar(s, t, r, pc);
  }

  lemma ReadCountBar(s: State, t: nat, r: State)
    requires Tables(s) && BarInv(s) && t < |s.threads| && |s.threads[t].stack| == 1
    requires s.threads[t].stack[0].mode == Bar(ReadCount)
    requires r == SetMode(s, t, Bar(if s.count < |s.threads| then DrainCheck else ReadPending)) && Tables(r)
    ensures BarInv(r)
  {
    if s.count < |s.threads| {
      LoopBar(s, t, r, DrainCheck);
    } else {
      SawCountBar(s, t, r);
    }
  }

  lemma ReadPendingBar(s: State, t: nat, r: State)
    requires Placed(s) && Kinded(s) && Counted(s) && BarInv(s) && t < |s.threads| && |s.threads[t].stack| == 1
    requires s.threads[t].stack[0].mode == Bar(ReadPending)
    requires r == SetMode(s, t, Bar(if s.numPending != 0 then DrainCheck else CountOut)) && Tables(r)
    ensures BarInv(r)
  {
    if s.numPending == 0 {
      NothingPending(s, t);
      SawNonePendingBar(s, t, r);
    } else {
      SawPendingBar(s, t, r);
    }
  }

  lemma NextBar(s: State, a: Action)
    requires Inv(s) && Placed(Next(s, a))
    ensures BarInv(Next(s, a))
  {
    if a.t < |s.threads| {
      var t, top := a.t, Top(s.threads[a.t]);
      assert ThreadOk(s, t) && FrameOk(s, t, |s.threads[t].stack| - 1);
      match a {
        case Spawn(_, blocks) => if top.mode.Running? { SpawnBar(s, t, blocks); }
        case RunNow(_) =>
          if top.mode.Running? {
            WithUndeferredPlaced(s, t);
            RunNowBar(s, t);
          }
        case TaskWait(_) => if top.mode.Running? { ModeBar(s, t, WaitCheck); }
        case Exit(_) => if top.mode.Running? && |s.threads[t].stack| >= 2 { ModeBar(s, t, ExitPending); }
        case EnterBarrier(_) => EnterBar(s, t);
        case Step(_, victim) => StepBar(s, t, victim);
      }
    }
  }

  lemma StepBar(s: State, t: nat, victim: nat)
    requires Inv(s) && t < |s.threads| && Placed(Next(s, Step(t, victim)))
    ensures BarInv(Next(s, Step(t, victim)))
  {
    match Top(s.threads[t]).mode {
      case Running =>
      case Spawning(_, _) => SpawnStepBar(s, t);
      case WaitCheck => ModeBar(s, t, if s.numChildren[Top(s.threads[t]).task] != 0 then WaitTake else Running);
      case WaitTake => TakeBar(s, t, victim, WaitCheck);
      case Bar(_) => BarStepBar(s, t, victim);
      case _ => ExitStepBar(s, t, victim);
    }
  }

  // ---------- all runs ----------

  lemma NextInv(s: State, a: Action)
    requires Inv(s)
    ensures Inv(Next(s, a))
  {
    NextPlaced(s, a);
    NextKinds(s, a);
    NextCounted(s, a);
    NextBar(s, a);
    NextTrees(s, a);
    NextReady(s, a);
  }

  function Exec(s: State, schedule: seq<Action>): State
    requires Inv(s)
    decreases |schedule|
  {
    if schedule == [] then s
    else
      NextInv(s, schedule[0]);
      Exec(Next(s, schedule[0]), schedule[1..])
  }

  lemma InitInv(s: State)
    requires Init(s)
    ensures Inv(s)
  {
    InitPlaced(s);
    InitKinded(s);
    InitCounted(s);
    InitBar(s);
    InitTree(s);
  }

  lemma {:induction false} ExecInv(s: State, schedule: seq<Action>)
    requires Inv(s)
    ensures Inv(Exec(s, schedule))
    decreases |schedule|
  {
    if schedule == [] {
    } else {
      NextInv(s, schedule[0]);
      ExecInv(Next(s, schedule[0]), schedule[1..]);
    }
  }

  /** The state after a run from the start, where the invariant holds; every step keeps it. */
  function Run(s: State, schedule: seq<Action>): (r: State)
    requires Init(s)
    ensures Inv(r)
  {
    InitInv(s);
    ExecInv(s, schedule);
    Exec(s, schedule)
  }

  ghost predicate IsRun(s: State, schedule: seq<Action>, r: State) {
    Init(s) && Run(s, schedule) == r
  }

  /** Some run of some team, of any length and under any interleaving, ends in r. */
  ghost predicate Reachable(r: State) {
    exists s: State, schedule: seq<Action> :: IsRun(s, schedule, r)
  }

  /** The invariant holds in every reachable state. */
  lemma ReachableInv(r: State)
    requires Reachable(r)
    ensures Inv(r)
  {
    var s: State, schedule: seq<Action> :| IsRun(s, schedule, r);
  }

  // ---------- main results ----------

  /**
  Tied-task scheduling constraint (section 2.7.1 of the OpenMP API 3.0): in every reachable state, every
  task on a thread's stack descends from every tied task suspended beneath it and not in a barrier.
  */
  lemma TiedConstraint(r: State, t: nat, k: nat, l: nat)
    requires Reachable(r) && t < |r.threads| && k < l < |r.threads[t].stack|
    ensures !r.threads[t].stack[k].mode.Bar?
        ==> Descends(r.parent, r.threads[t].stack[l].task, r.threads[t].stack[k].task)
  {
    ReachableInv(r);
    assert FrameTree(r, t, k);
  }

  /** The task a thread fetches, from its own queue or another's, may run on top of all it has suspended. */
  lemma FetchedTaskAllowed(r: State, t: nat, victim: nat)
    requires Reachable(r) && Tables(r) && t < |r.threads| && Found(r, t, victim) >= 0
    requires Top(r.threads[t]).mode.WaitTake? || Top(r.threads[t]).mode.ExitTake?
        || Top(r.threads[t]).mode == Bar(DrainTake)
    ensures Allowed(r, t, Found(r, t, victim))
  {
    ReachableInv(r);
    if Top(r.threads[t]).mode.WaitTake? {
      TakePlaced(r, t, victim, WaitCheck);
      TakeTrees(r, t, victim, WaitCheck);
    } else if Top(r.threads[t]).mode.ExitTake? {
      TakePlaced(r, t, victim, ExitCheck);
      TakeTrees(r, t, victim, ExitCheck);
    } else {
      TakePlaced(r, t, victim, Bar(DrainCheck));
      TakeTrees(r, t, victim, Bar(DrainCheck));
    }
  }

  /** The counters of the runtime are exact in every reachable state. */
  lemma CountersExact(r: State, c: nat)
    requires Reachable(r) && Tables(r) && c < |r.parent|
    ensures r.numPending == |Pending(r)|
    ensures r.numChildren[c] == |Children(r, c)|
    ensures r.numBlocking[c] == |Blocking(r, c)|
  {
    ReachableInv(r);
  }

  /** How many barriers thread t has entered and been counted in. */
  function Arrivals(s: State, t: nat): nat
    requires Tables(s) && t < |s.threads|
  {
    s.threads[t].episode + (if HasArrived(PhaseOf(s.threads[t])) then 1 else 0)
  }

  /** Barrier: whoever has left episode e left it after every thread had entered it. */
  lemma BarrierHolds(r: State, t: nat, u: nat, e: nat)
    requires Reachable(r) && Tables(r) && t < |r.threads| && u < |r.threads|
    ensures r.threads[t].episode > e ==> Arrivals(r, u) > e
  {
    ReachableInv(r);
    assert BarThread(r, t) && BarThread(r, u);
  }

  /**
  Barrier with tasks (section 2.8.3 of the OpenMP API 3.0): from the moment a thread has seen the pool
  empty until the flag toggles, everyone is in, nothing is pending, and nobody can create a task;
  and when the flag is about to toggle every deferred task ever created has finished.
  */
  lemma BarrierCompletesTasks(r: State, t: nat)
    requires Reachable(r) && Tables(r) && t < |r.threads| && Current(r, t) && IsPast(PhaseOf(r.threads[t]))
    ensures AllArrived(r) && r.numPending == 0
    ensures forall u :: 0 <= u < |r.threads| ==> !Top(r.threads[u]).mode.Spawning?
    ensures PhaseOf(r.threads[t]).Toggling? ==> forall x :: |r.threads| <= x < |r.life| ==> r.life[x].Done?
  {
    ReachableInv(r);
    assert BarThread(r, t);
    forall u | 0 <= u < |r.threads| ensures !Top(r.threads[u]).mode.Spawning? {
      if Top(r.threads[u]).mode.Spawning? { NoneInProgress(r, u); }
    }
    if PhaseOf(r.threads[t]).Toggling? {
      forall x | |r.threads| <= x < |r.life| ensures r.life[x].Done? {
        forall u | 0 <= u < |r.threads| ensures r.threads[u].queue == [] && |r.threads[u].stack| == 1 {
          assert BarThread(r, u);
        }
        AllQuiet(r, x);
      }
    }
  }

  /** With nothing queued, running or being created, every explicit task has finished. */
  lemma AllQuiet(s: State, x: nat)
    requires Placed(s) && |s.threads| <= x < |s.life|
    requires forall u :: 0 <= u < |s.threads| ==>
      s.threads[u].queue == [] && |s.threads[u].stack| == 1 && !Top(s.threads[u]).mode.Spawning?
    ensures s.life[x].Done?
  {
    assert Located(s, x);
    forall u | 0 <= u < |s.threads| ensures !OnStack(s, u, x) {
      assert ThreadOk(s, u) && FrameOk(s, u, 0);
    }
  }

  // ---------- no deadlock ----------

  /** Thread t is spinning: what it waits for has not happened and its own queue offers nothing. */
  predicate Stuck(s: State, t: nat)
    requires Tables(s) && t < |s.threads|
  {
    var (th, top) := (s.threads[t], Top(s.threads[t]));
    match top.mode
    case WaitCheck => s.numChildren[top.task] != 0 && th.queue == []
    case WaitTake => s.numChildren[top.task] != 0 && th.queue == []
    case ExitCheck => s.numBlocking[top.task] != 0 && th.queue == []
    case ExitTake => s.numBlocking[top.task] != 0 && th.queue == []
    case Bar(AwaitFlag) => s.flag == th.barFlag
    case Bar(pc) =>
      && (pc.ReadCount? || pc.ReadPending? || pc.DrainCheck? || pc.DrainTake?)
      && !(s.count == |s.threads| && s.numPending == 0)
      && th.queue == []
    case _ => false
  }

  lemma {:induction false} DescendantsAreYounger(parent: seq<int>, x: int, a: int)
    requires Descends(parent, x, a)
    ensures x > a
    decreases x
  {
    if parent[x] == a {
    } else {
      DescendantsAreYounger(parent, parent[x], a);
    }
  }

  lemma {:induction false} YoungestTop(s: State, n: nat) returns (m: nat)
    requires Tables(s) && 0 < n <= |s.threads|
    ensures m < n && forall u :: 0 <= u < n ==> Top(s.threads[u]).task <= Top(s.threads[m]).task
    decreases n
  {
    if n == 1 {
      m := 0;
    } else {
      m := YoungestTop(s, n - 1);
      if Top(s.threads[m]).task < Top(s.threads[n - 1]).task { m := n - 1; }
    }
  }

  /** An unfinished child of a stuck task is queued, being created, or under a younger task somewhere. */
  lemma ChildElsewhere(s: State, x: nat, m: nat)
    requires Inv(s) && |s.threads| <= x < |s.life| && !s.life[x].Done? && m < |s.threads|
    requires forall u :: 0 <= u < |s.threads| ==> Stuck(s, u)
    requires forall u :: 0 <= u < |s.threads| ==> Top(s.threads[u]).task <= Top(s.threads[m]).task
    ensures x <= Top(s.threads[m]).task
  {
    assert Located(s, x);
    var u := s.life[x].t;
    assert ThreadOk(s, u) && Stuck(s, u) && BarThread(s, u) && FrameOk(s, u, |s.threads[u].stack| - 1);
    if OnStack(s, u, x) {
      var k :| 0 <= k < |s.threads[u].stack| && s.threads[u].stack[k].task == x;
      assert FrameOk(s, u, k) && FrameTree(s, u, k);
      if k + 1 < |s.threads[u].stack| {
        DescendantsAreYounger(s.parent, Top(s.threads[u]).task, x);
      }
    }
  }

  /** If every thread were stuck, no thread would be waiting for a child ... */
  lemma NobodyWaits(s: State, m: nat)
    requires Inv(s) && m < |s.threads|
    requires forall u :: 0 <= u < |s.threads| ==> Stuck(s, u)
    requires forall u :: 0 <= u < |s.threads| ==> Top(s.threads[u]).task <= Top(s.threads[m]).task
    ensures Top(s.threads[m]).mode.Bar?
  {
    var c := Top(s.threads[m]).task;
    assert Stuck(s, m);
    if Top(s.threads[m]).mode.WaitCheck? || Top(s.threads[m]).mode.WaitTake? {
      var x := HasChild(s, c);
      ChildElsewhere(s, x, m);
    } else if Top(s.threads[m]).mode.ExitCheck? || Top(s.threads[m]).mode.ExitTake? {
      var x := HasBlocking(s, c);
      ChildElsewhere(s, x, m);
    }
  }

  lemma NobodyPending(s: State)
    requires Placed(s)
    requires forall u :: 0 <= u < |s.threads| ==>
      s.threads[u].queue == [] && |s.threads[u].stack| == 1 && !Top(s.threads[u]).mode.Spawning?
    ensures Pending(s) == {}
  {
    forall x: nat | |s.threads| <= x < |s.life| ensures s.life[x].Done? {
      AllQuiet(s, x);
    }
  }

  /** ... everyone would sit in the barrier with the pool empty ... */
  lemma EveryoneInBarrier(s: State, m: nat)
    requires Inv(s) && m < |s.threads|
    requires forall u :: 0 <= u < |s.threads| ==> Stuck(s, u)
    requires forall u :: 0 <= u < |s.threads| ==> Top(s.threads[u]).task <= Top(s.threads[m]).task
    ensures forall u :: 0 <= u < |s.threads| ==>
      && |s.threads[u].stack| == 1 && Top(s.threads[u]).mode.Bar? && s.threads[u].queue == []
      && Current(s, u) && HasArrived(PhaseOf(s.threads[u])) && !IsResetting(PhaseOf(s.threads[u]))
  {
    NobodyWaits(s, m);
    assert ThreadOk(s, m) && FrameOk(s, m, |s.threads[m].stack| - 1);
    forall u | 0 <= u < |s.threads|
      ensures && |s.threads[u].stack| == 1 && Top(s.threads[u]).mode.Bar? && s.threads[u].queue == []
              && Current(s, u) && HasArrived(PhaseOf(s.threads[u])) && !IsResetting(PhaseOf(s.threads[u]))
    {
      assert Stuck(s, u) && BarThread(s, u) && ThreadOk(s, u) && FrameOk(s, u, |s.threads[u].stack| - 1);
      assert |s.threads[u].stack| == 1;
      if !Top(s.threads[u]).mode.Bar? {
        var x := HasChild(s, u);
        ChildElsewhere(s, x, m);
      }
    }
  }

  /** No deadlock: in every reachable state some thread is not stuck. */
  lemma NoDeadlock(r: State) returns (t: nat)
    requires Reachable(r) && Tables(r)
    ensures t < |r.threads| && !Stuck(r, t)
  {
    ReachableInv(r);
    if t0 :| 0 <= t0 < |r.threads| && !Stuck(r, t0) {
      t := t0;
    } else {
      var m := YoungestTop(r, |r.threads|);
      EveryoneInBarrier(r, m);
      NobodyPending(r);
      AllInside(r);
      FullCounts(r);
      assert false;
    }
  }

  /** ... where with the pool empty all that is left to wait for is the flag ... */
  lemma StuckIsCountedOut(s: State, u: nat)
    requires Tables(s) && u < |s.threads| && Stuck(s, u) && |s.threads[u].stack| == 1
    requires s.numPending == 0 && s.count == |s.threads| && HasArrived(PhaseOf(s.threads[u]))
    ensures HasCountedOut(PhaseOf(s.threads[u]))
  {
  }

  /** ... and then the last to count out would have been the one to reset. */
  lemma FullCounts(s: State)
    requires Inv(s) && s.numPending == 0 && AllArrived(s) && |s.threads| > 0
    requires forall u :: 0 <= u < |s.threads| ==> !IsResetting(PhaseOf(s.threads[u])) && |s.threads[u].stack| == 1
    ensures exists u :: 0 <= u < |s.threads| && !Stuck(s, u)
  {
    AllInside(s);
    if forall u :: 0 <= u < |s.threads| ==> Stuck(s, u) {
      forall u | 0 <= u < |s.threads| ensures u in CountedOutSet(s) {
        StuckIsCountedOut(s, u);
      }
      HoldsAll(CountedOutSet(s), |s.threads|);
    }
  }
}
