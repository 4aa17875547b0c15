/** Only deferred tasks are ever queued, and an undeferred task runs right on top of its creator. */
module TaskKinds {
  import opened TaskScheduler
  import opened TaskPlacement

  predicate Unstarted(l: Life) {
    l.Spawned? || l.Queued?
  }

  /** A task on a stack is deferred, or the one beneath it has stopped in the middle of its own code. */
  predicate OnCreator(s: State, t: nat, k: nat)
    requires Tables(s) && t < |s.threads| && 0 < k < |s.threads[t].stack|
  {
    s.kinds[s.threads[t].stack[k].task].Deferred? || s.threads[t].stack[k - 1].mode.Running?
  }

  predicate Kinded(s: State)
    requires Tables(s)
  {
    && (forall x :: 0 <= x < |s.life| && Unstarted(s.life[x]) ==> s.kinds[x].Deferred?)
    && (forall t, k :: 0 <= t < |s.threads| && 0 < k < |s.threads[t].stack| ==> OnCreator(s, t, k))
  }

  lemma InitKinded(s: State)
    requires Init(s)
    ensures Placed(s) && Kinded(s)
  {
    InitPlaced(s);
  }

  /** No task becomes unstarted but a new deferred one. */
  predicate LivesFollow(s: State, r: State)
    requires Tables(s) && Tables(r)
  {
    && |r.threads| == |s.threads| && s.kinds <= r.kinds
    && forall x :: 0 <= x < |r.life| && Unstarted(r.life[x]) ==>
         (x < |s.life| && Unstarted(s.life[x])) || r.kinds[x].Deferred?
  }

  /** What is on u's stack was there, on the same task in the same mode, or has just been put there as it should. */
  predicate StackFollows(s: State, r: State, u: nat)
    requires Tables(s) && Tables(r) && u < |s.threads| && u < |r.threads|
  {
    var (a, b) := (s.threads[u].stack, r.threads[u].stack);
    forall k :: 0 < k < |b| ==>
      || (k < |a| && b[k].task == a[k].task && b[k - 1].mode == a[k - 1].mode)
      || OnCreator(r, u, k)
  }

  lemma KindsFollow(s: State, r: State)
    requires Tables(s) && Tables(r) && Kinded(s) && LivesFollow(s, r)
    requires forall u :: 0 <= u < |s.threads| ==> StackFollows(s, r, u)
    ensures Kinded(r)
  {
    forall u, k | 0 <= u < |r.threads| && 0 < k < |r.threads[u].stack| ensures OnCreator(r, u, k) {
      assert StackFollows(s, r, u);
      if k < |s.threads[u].stack| {
        assert OnCreator(s, u, k);
      }
    }
  }

  /** Below the top of its stack nothing of thread t changes, and nothing of any other thread's stack. */
  predicate TopOnly(s: State, r: State, t: nat)
    requires Tables(s) && t < |s.threads|
  {
    && |r.threads| == |s.threads|
    && (forall u :: 0 <= u < |s.threads| && u != t ==> r.threads[u].stack == s.threads[u].stack)
    && r.threads[t].stack != [] && Top(r.threads[t]).task == Top(s.threads[t]).task
    && r.threads[t].stack == s.threads[t].stack[|s.threads[t].stack| - 1 := Top(r.threads[t])]
  }

  lemma TopKinds(s: State, r: State, t: nat)
    requires Tables(s) && Tables(r) && Kinded(s) && t < |s.threads| && LivesFollow(s, r) && TopOnly(s, r, t)
    ensures Kinded(r)
  {
    KindsFollow(s, r);
  }

  lemma SwitchKinds(s: State, t: nat, x: nat)
    requires Tables(s) && Kinded(s) && t < |s.threads| && x < |s.life| && Tables(Switch(s, t, x))
    requires s.kinds[x].Deferred? || Top(s.threads[t]).mode.Running?
    ensures Kinded(Switch(s, t, x))
  {
    KindsFollow(s, Switch(s, t, x));
  }

  lemma RunNowKinds(s: State, t: nat)
    requires Tables(s) && Kinded(s) && t < |s.threads| && Top(s.threads[t]).mode.Running?
    requires Tables(WithUndeferred(s, t)) && Tables(Next(s, RunNow(t)))
    ensures Kinded(WithUndeferred(s, t)) && Kinded(Next(s, RunNow(t)))
  {
    TopKinds(s, WithUndeferred(s, t), t);
    SwitchKinds(WithUndeferred(s, t), t, |s.parent|);
  }

  lemma TakeKinds(s: State, t: nat, victim: nat, resume: Mode)
    requires Placed(s) && Kinded(s) && t < |s.threads| && Taking(Top(s.threads[t]).mode, resume)
    requires Tables(Take(s, t, victim, resume))
    ensures Kinded(Take(s, t, victim, resume))
  {
    var x, m := Found(s, t, victim), SetMode(s, t, resume);
    TopKinds(s, m, t);
    if x >= 0 {
      FoundIsDeferred(s, t, victim);
      TakenKinds(s, t, victim, resume);
    }
  }

  lemma FoundIsDeferred(s: State, t: nat, victim: nat)
    requires Placed(s) && Kinded(s) && t < |s.threads| && Found(s, t, victim) >= 0
    ensures Found(s, t, victim) < |s.life| && s.kinds[Found(s, t, victim)].Deferred?
  {
    assert ThreadOk(s, t) && (victim < |s.threads| ==> ThreadOk(s, victim));
  }

  lemma TakenKinds(s: State, t: nat, victim: nat, resume: Mode)
    requires Tables(s) && Kinded(s) && t < |s.threads| && Tables(Take(s, t, victim, resume))
    requires 0 <= Found(s, t, victim) < |s.life| && s.kinds[Found(s, t, victim)].Deferred?
    ensures Kinded(Take(s, t, victim, resume))
  {
    KindsFollow(s, Take(s, t, victim, resume));
  }

  lemma SpawnStepKinds(s: State, t: nat)
    requires Placed(s) && Kinded(s) && t < |s.threads| && Top(s.threads[t]).mode.Spawning? && Tables(SpawnStep(s, t))
    ensures Kinded(SpawnStep(s, t))
  {
    var m := Top(s.threads[t]).mode;
    assert ThreadOk(s, t) && FrameOk(s, t, |s.threads[t].stack| - 1);
    if m.stage == 3 {
      PutKinds(s, t, m.child);
    } else {
      StageKinds(s, t, m);
    }
  }

  lemma StageKinds(s: State, t: nat, m: Mode)
    requires Placed(s) && Kinded(s) && t < |s.threads| && m == Top(s.threads[t]).mode && m.Spawning?
    requires m.child < |s.life| && s.kinds[m.child].Deferred? && m.stage < 3 && Tables(SpawnStep(s, t))
    ensures Kinded(SpawnStep(s, t))
  {
    TopKinds(s, Restage(s, t, m.child, m.stage + 1), t);
    RestagedSame(s, t);
    SamePlacesKinds(Restage(s, t, m.child, m.stage + 1), SpawnStep(s, t));
  }

  lemma SamePlacesKinds(s: State, r: State)
    requires Tables(s) && Tables(r) && Kinded(s) && SamePlaces(s, r)
    ensures Kinded(r)
  {
    KindsFollow(s, r);
  }

  lemma PutKinds(s: State, t: nat, x: nat)
    requires Placed(s) && Kinded(s) && t < |s.threads| && Top(s.threads[t]).mode == Spawning(x, 3)
    requires x < |s.life| && s.kinds[x].Deferred? && Tables(SpawnStep(s, t))
    ensures Kinded(SpawnStep(s, t))
  {
    var m := Release(s, t, x);
    TopKinds(s, m, t);
    PutIsMoves(s, t);
    if |s.threads[t].queue| < s.capacity {
      TopKinds(m, Enqueue(m, t, x), t);
    } else {
      SwitchKinds(m, t, x);
    }
  }

  lemma ReturnKinds(s: State, t: nat)
    requires Tables(s) && Kinded(s) && t < |s.threads| && |s.threads[t].stack| >= 2 && Tables(Return(s, t))
    ensures Kinded(Return(s, t))
  {
    KindsFollow(s, Return(s, t));
  }

  lemma ExitStepKinds(s: State, t: nat, victim: nat)
    requires Placed(s) && Kinded(s) && t < |s.threads| && IsExit(Top(s.threads[t]).mode)
    requires Tables(ExitStep(s, t, victim))
    ensures Kinded(ExitStep(s, t, victim))
  {
    assert ThreadOk(s, t) && FrameOk(s, t, |s.threads[t].stack| - 1);
    match Top(s.threads[t]).mode {
      case ExitTake => TakeKinds(s, t, victim, ExitCheck);
      case ExitBlocking => ExitReturnKinds(s, t, victim);
      case _ => ExitModeKinds(s, t, victim);
    }
  }

  lemma ExitReturnKinds(s: State, t: nat, victim: nat)
    requires Placed(s) && Kinded(s) && t < |s.threads| && |s.threads[t].stack| >= 2
    requires Top(s.threads[t]).mode.ExitBlocking? && Tables(ExitStep(s, t, victim))
    ensures Kinded(ExitStep(s, t, victim))
  {
    ReturnTables(s, t);
    ReturnKinds(s, t);
    ExitReturnSame(s, t, victim);
    SamePlacesKinds(Return(s, t), ExitStep(s, t, victim));
  }

  lemma ExitModeKinds(s: State, t: nat, victim: nat)
    requires Tables(s) && Kinded(s) && t < |s.threads| && Tables(ExitStep(s, t, victim))
    requires var m := Top(s.threads[t]).mode; m.ExitPending? || m.ExitParent? || m.ExitCheck?
    ensures Kinded(ExitStep(s, t, victim))
  {
    TopKinds(s, ExitStep(s, t, victim), t);
  }

  lemma StepKinds(s: State, t: nat, victim: nat)
    requires Placed(s) && Kinded(s) && t < |s.threads| && Tables(Next(s, Step(t, victim)))
    ensures Kinded(Next(s, Step(t, victim)))
  {
    match Top(s.threads[t]).mode {
      case Running =>
      case Spawning(_, _) => SpawnStepKinds(s, t);
      case WaitCheck => ModeKinds(s, t, Top(Next(s, Step(t, victim)).threads[t]).mode, Next(s, Step(t, victim)));
      case WaitTake => TakeKinds(s, t, victim, WaitCheck);
      case Bar(_) => BarStepKinds(s, t, victim);
      case _ => ExitStepKinds(s, t, victim);
    }
  }

  lemma ModeKinds(s: State, t: nat, m: Mode, r: State)
    requires Tables(s) && Kinded(s) && t < |s.threads| && SamePlaces(SetMode(s, t, m), r) && Tables(r)
    ensures Kinded(r)
  {
    TopKinds(s, r, t);
  }

  lemma LeaveKinds(s: State, t: nat, r: State)
    requires Tables(s) && Kinded(s) && t < |s.threads| && SamePlaces(LeaveBarrier(s, t), r) && Tables(r)
    ensures Kinded(r)
  {
    TopKinds(s, r, t);
  }

  lemma BarStepKinds(s: State, t: nat, victim: nat)
    requires Placed(s) && Kinded(s) && t < |s.threads| && Top(s.threads[t]).mode.Bar? && Tables(BarStep(s, t, victim))
    ensures Kinded(BarStep(s, t, victim))
  {
    var r := BarStep(s, t, victim);
    match Top(s.threads[t]).mode.pc {
      case DrainTake => TakeKinds(s, t, victim, Bar(DrainCheck));
      case Toggle => LeaveKinds(s, t, r);
      case AwaitFlag => if s.flag != s.threads[t].barFlag { LeaveKinds(s, t, r); }
      case _ => ModeKinds(s, t, Top(r.threads[t]).mode, r);
    }
  }

  lemma NextKinds(s: State, a: Action)
    requires Placed(s) && Kinded(s) && Placed(Next(s, a))
    ensures Kinded(Next(s, a))
  {
    if a.t < |s.threads| {
      if a.Step? {
        StepKinds(s, a.t, a.victim);
      } else if a.RunNow? {
        if Top(s.threads[a.t]).mode.Running? {
          WithUndeferredPlaced(s, a.t);
          RunNowKinds(s, a.t);
        }
      } else {
        CallKinds(s, a);
      }
    }
  }

  /** Creating a deferred task, and the start of a taskwait, an exit or a barrier. */
  lemma CallKinds(s: State, a: Action)
    requires Tables(s) && Kinded(s) && a.t < |s.threads| && !a.Step? && !a.RunNow? && Tables(Next(s, a))
    ensures Kinded(Next(s, a))
  {
    TopKinds(s, Next(s, a), a.t);
  }
}
