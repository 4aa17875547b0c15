/** The three counters of the scheduler always equal the number of tasks they stand for. */
module TaskCounters {
  import opened Arith
  import opened TaskScheduler
  import opened TaskPlacement
  import opened TaskKinds

  /** Counted in the parent's num_children: from the creation until the task starts to exit. */
  predicate CountsAsChild(l: Life) {
    (l.Spawned? && l.stage >= 1) || l.Queued? || l.Active? || l.CountedOut?
  }

  /** Counted in num_blocking_children, if it blocks its parent: until the very end of the exit. */
  predicate CountsAsBlocking(l: Life) {
    (l.Spawned? && l.stage >= 2) || l.Queued? || l.Active? || l.CountedOut? || l.Left?
  }

  /** Counted in num_pending_tasks. */
  predicate CountsAsPending(l: Life) {
    (l.Spawned? && l.stage >= 3) || l.Queued? || l.Active?
  }

  function Children(s: State, c: nat): set<nat>
    requires Tables(s)
  {
    set x: nat | |s.threads| <= x < |s.life| && s.parent[x] == c && s.kinds[x].Deferred? && CountsAsChild(s.life[x])
  }

  function Blocking(s: State, c: nat): set<nat>
    requires Tables(s)
  {
    set x: nat |
      |s.threads| <= x < |s.life| && s.parent[x] == c && s.kinds[x] == Deferred(true) && CountsAsBlocking(s.life[x])
  }

  /** The deferred tasks counted in and not yet counted out. */
  function Pending(s: State): set<nat>
    requires Tables(s)
  {
    set x: nat | |s.threads| <= x < |s.life| && s.kinds[x].Deferred? && CountsAsPending(s.life[x])
  }

  predicate Counted(s: State)
    requires Tables(s)
  {
    && (forall c :: 0 <= c < |s.parent| ==>
          s.numChildren[c] == |Children(s, c)| && s.numBlocking[c] == |Blocking(s, c)|)
    && s.numPending == |Pending(s)|
  }

  lemma InitCounted(s: State)
    requires Init(s)
    ensures Placed(s) && Counted(s)
  {
    InitPlaced(s);
    forall c | 0 <= c < |s.parent| ensures Children(s, c) == {} && Blocking(s, c) == {} {
    }
    assert Pending(s) == {};
  }

  lemma SetChange(a: set<nat>, b: set<nat>, x: nat)
    requires forall y :: y != x ==> (y in a <==> y in b)
    ensures |b| == |a| + One(x in b) - One(x in a)
  {
    assert a - {x} == b - {x};
    assert |a| == |a - {x}| + One(x in a);
    assert |b| == |b - {x}| + One(x in b);
  }

  /** Exactly task x changes its life, or nobody does. */
  predicate OneLifeChanges(s: State, r: State, x: nat) {
    && |r.threads| == |s.threads| && |s.threads| <= x < |s.life|
    && r.parent == s.parent && r.kinds == s.kinds && |r.life| == |s.life|
    && (forall y :: 0 <= y < |s.life| && y != x ==> r.life[y] == s.life[y])
  }

  /** If the counters move by what the one life change is worth, they stay right. */
  lemma CountersFollow(s: State, r: State, x: nat)
    requires Tables(s) && Tables(r) && Counted(s) && OneLifeChanges(s, r, x)
    requires forall c :: 0 <= c < |s.parent| ==>
      && r.numChildren[c] == s.numChildren[c] +
           (if c == s.parent[x] && s.kinds[x].Deferred? then
               One(CountsAsChild(r.life[x])) - One(CountsAsChild(s.life[x])) else 0)
      && r.numBlocking[c] == s.numBlocking[c] +
           (if c == s.parent[x] && s.kinds[x] == Deferred(true) then
               One(CountsAsBlocking(r.life[x])) - One(CountsAsBlocking(s.life[x])) else 0)
    requires r.numPending == s.numPending +
      (if s.kinds[x].Deferred? then One(CountsAsPending(r.life[x])) - One(CountsAsPending(s.life[x])) else 0)
    ensures Counted(r)
  {
    forall c | 0 <= c < |s.parent|
      ensures r.numChildren[c] == |Children(r, c)| && r.numBlocking[c] == |Blocking(r, c)|
    {
      SetChange(Children(s, c), Children(r, c), x);
      SetChange(Blocking(s, c), Blocking(r, c), x);
    }
    SetChange(Pending(s), Pending(r), x);
  }

  lemma CountersStay(s: State, r: State)
    requires Tables(s) && Tables(r) && Counted(s) && |r.threads| == |s.threads|
    requires r.parent == s.parent && r.kinds == s.kinds && r.life == s.life
    requires r.numChildren == s.numChildren && r.numBlocking == s.numBlocking && r.numPending == s.numPending
    ensures Counted(r)
  {
    forall c | 0 <= c < |s.parent| ensures Children(r, c) == Children(s, c) && Blocking(r, c) == Blocking(s, c) {
    }
    assert Pending(r) == Pending(s);
  }

  lemma SpawnCounted(s: State, t: nat, blocks: bool)
    requires Placed(s) && Counted(s) && t < |s.threads| && Top(s.threads[t]).mode.Running?
    requires Tables(Next(s, Spawn(t, blocks)))
    ensures Counted(Next(s, Spawn(t, blocks)))
  {
    var r, x := Next(s, Spawn(t, blocks)), |s.life|;
    forall c | 0 <= c < |r.parent|
      ensures r.numChildren[c] == |Children(r, c)| && r.numBlocking[c] == |Blocking(r, c)|
    {
      if c < x {
        assert Children(r, c) == Children(s, c) && Blocking(r, c) == Blocking(s, c);
      } else {
        assert Children(r, c) == {} && Blocking(r, c) == {};
      }
    }
    assert Pending(r) == Pending(s);
  }

  lemma WithUndeferredCounted(s: State, t: nat)
    requires Tables(s) && Counted(s) && t < |s.threads| && Tables(WithUndeferred(s, t))
    ensures Counted(WithUndeferred(s, t))
  {
    var r, x := WithUndeferred(s, t), |s.life|;
    forall c | 0 <= c < |r.parent|
      ensures r.numChildren[c] == |Children(r, c)| && r.numBlocking[c] == |Blocking(r, c)|
    {
      if c < x {
        assert Children(r, c) == Children(s, c) && Blocking(r, c) == Blocking(s, c);
      } else {
        assert Children(r, c) == {} && Blocking(r, c) == {};
      }
    }
    assert Pending(r) == Pending(s);
  }

  /** An undeferred task is counted nowhere. */
  lemma RunNowCounted(s: State, t: nat)
    requires Tables(s) && Counted(s) && t < |s.threads| && Top(s.threads[t]).mode.Running?
    requires Tables(WithUndeferred(s, t)) && Tables(Next(s, RunNow(t)))
    ensures Counted(Next(s, RunNow(t)))
  {
    WithUndeferredCounted(s, t);
    CountersFollow(WithUndeferred(s, t), Next(s, RunNow(t)), |s.parent|);
  }

  lemma TakeCounted(s: State, t: nat, victim: nat, resume: Mode)
    requires Placed(s) && Counted(s) && t < |s.threads| && Taking(Top(s.threads[t]).mode, resume)
    requires Tables(Take(s, t, victim, resume))
    ensures Counted(Take(s, t, victim, resume))
  {
    var x, r := Found(s, t, victim), Take(s, t, victim, resume);
    if x < 0 {
      CountersStay(s, r);
    } else {
      FoundIsQueued(s, t, victim);
      CountersFollow(s, r, x);
    }
  }

  lemma FoundIsQueued(s: State, t: nat, victim: nat)
    requires Placed(s) && t < |s.threads| && Found(s, t, victim) >= 0
    ensures |s.threads| <= Found(s, t, victim) < |s.life| && s.life[Found(s, t, victim)].Queued?
  {
    if s.threads[t].queue != [] { TailIsQueued(s, t); } else { HeadIsQueued(s, victim); }
    assert ThreadOk(s, t) && (victim < |s.threads| ==> ThreadOk(s, victim));
  }

  /** The child being created, at the stage its creator says. */
  lemma ChildOf(s: State, t: nat)
    requires Placed(s) && Kinded(s) && t < |s.threads| && Top(s.threads[t]).mode.Spawning?
    ensures var m := Top(s.threads[t]).mode;
      && |s.threads| <= m.child < |s.life| && s.life[m.child] == Spawned(t, m.stage) && m.stage <= 3
      && s.parent[m.child] == Top(s.threads[t]).task && s.kinds[m.child].Deferred?
  {
    assert ThreadOk(s, t) && FrameOk(s, t, |s.threads[t].stack| - 1);
    QueuedAreExplicit(s, t, Top(s.threads[t]).mode.child);
  }

  lemma StageCounted(s: State, t: nat)
    requires Tables(s) && Counted(s) && t < |s.threads| && Top(s.threads[t]).mode.Spawning? && Tables(SpawnStep(s, t))
    requires var m := Top(s.threads[t]).mode;
      && |s.threads| <= m.child < |s.life| && s.life[m.child] == Spawned(t, m.stage) && m.stage < 3
      && s.parent[m.child] == Top(s.threads[t]).task && s.kinds[m.child].Deferred?
    ensures Counted(SpawnStep(s, t))
  {
    CountersFollow(s, SpawnStep(s, t), Top(s.threads[t]).mode.child);
  }

  lemma PutCounted(s: State, t: nat)
    requires Tables(s) && Counted(s) && t < |s.threads| && Top(s.threads[t]).mode.Spawning? && Tables(SpawnStep(s, t))
    requires var m := Top(s.threads[t]).mode;
      |s.threads| <= m.child < |s.life| && s.life[m.child] == Spawned(t, m.stage) && m.stage == 3
    ensures Counted(SpawnStep(s, t))
  {
    CountersFollow(s, SpawnStep(s, t), Top(s.threads[t]).mode.child);
  }

  lemma SpawnStepCounted(s: State, t: nat)
    requires Placed(s) && Kinded(s) && Counted(s) && t < |s.threads| && Top(s.threads[t]).mode.Spawning?
    requires Tables(SpawnStep(s, t))
    ensures Counted(SpawnStep(s, t))
  {
    ChildOf(s, t);
    if Top(s.threads[t]).mode.stage < 3 { StageCounted(s, t); } else { PutCounted(s, t); }
  }

  lemma ExitPendingCounted(s: State, t: nat, victim: nat)
    requires Placed(s) && Counted(s) && t < |s.threads| && Top(s.threads[t]).mode.ExitPending?
    requires Tables(ExitStep(s, t, victim))
    ensures Counted(ExitStep(s, t, victim))
  {
    assert ThreadOk(s, t) && FrameOk(s, t, |s.threads[t].stack| - 1);
    CountersFollow(s, ExitStep(s, t, victim), Top(s.threads[t]).task);
  }

  lemma ExitParentCounted(s: State, t: nat, victim: nat)
    requires Placed(s) && Counted(s) && t < |s.threads| && Top(s.threads[t]).mode.ExitParent?
    requires Tables(ExitStep(s, t, victim))
    ensures Counted(ExitStep(s, t, victim))
  {
    assert ThreadOk(s, t) && FrameOk(s, t, |s.threads[t].stack| - 1);
    CountersFollow(s, ExitStep(s, t, victim), Top(s.threads[t]).task);
  }

  lemma ExitBlockingCounted(s: State, t: nat, victim: nat)
    requires Placed(s) && Counted(s) && t < |s.threads| && Top(s.threads[t]).mode.ExitBlocking?
    requires Tables(ExitStep(s, t, victim))
    ensures Counted(ExitStep(s, t, victim))
  {
    assert ThreadOk(s, t) && FrameOk(s, t, |s.threads[t].stack| - 1);
    LeavingCounted(s, t, victim, Top(s.threads[t]).task);
  }

  lemma LeavingCounted(s: State, t: nat, victim: nat, c: nat)
    requires Tables(s) && Counted(s) && t < |s.threads| && Top(s.threads[t]).mode.ExitBlocking?
    requires c == Top(s.threads[t]).task && |s.threads| <= c && s.life[c] == Left(t)
    requires |s.threads[t].stack| >= 2 && Tables(ExitStep(s, t, victim))
    ensures Counted(ExitStep(s, t, victim))
  {
    CountersFollow(s, ExitStep(s, t, victim), c);
  }

  lemma StepCounted(s: State, t: nat, victim: nat)
    requires Placed(s) && Kinded(s) && Counted(s) && t < |s.threads| && Tables(Next(s, Step(t, victim)))
    ensures Counted(Next(s, Step(t, victim)))
  {
    match Top(s.threads[t]).mode {
      case Running =>
      case Spawning(_, _) => SpawnStepCounted(s, t);
      case WaitCheck => CountersStay(s, Next(s, Step(t, victim)));
      case WaitTake => TakeCounted(s, t, victim, WaitCheck);
      case ExitPending => ExitPendingCounted(s, t, victim);
      case ExitParent => ExitParentCounted(s, t, victim);
      case ExitCheck => CountersStay(s, ExitStep(s, t, victim));
      case ExitTake => ExitTakeCounted(s, t, victim);
      case ExitBlocking => ExitBlockingCounted(s, t, victim);
      case Bar(_) => BarStepCounted(s, t, victim);
    }
  }

  lemma ExitTakeCounted(s: State, t: nat, victim: nat)
    requires Placed(s) && Counted(s) && t < |s.threads| && Top(s.threads[t]).mode.ExitTake?
    requires Tables(ExitStep(s, t, victim))
    ensures Counted(ExitStep(s, t, victim))
  {
    assert ThreadOk(s, t) && FrameOk(s, t, |s.threads[t].stack| - 1);
    TakeCounted(s, t, victim, ExitCheck);
  }

  lemma BarStepCounted(s: State, t: nat, victim: nat)
    requires Placed(s) && Counted(s) && t < |s.threads| && Top(s.threads[t]).mode.Bar? && Tables(BarStep(s, t, victim))
    ensures Counted(BarStep(s, t, victim))
  {
    match Top(s.threads[t]).mode.pc {
      case DrainTake => TakeCounted(s, t, victim, Bar(DrainCheck));
      case Toggle => CountersStay(s, BarStep(s, t, victim));
      case AwaitFlag => CountersStay(s, BarStep(s, t, victim));
      case _ => CountersStay(s, BarStep(s, t, victim));
    }
  }

  lemma NextCounted(s: State, a: Action)
    requires Placed(s) && Kinded(s) && Counted(s) && Tables(Next(s, a))
    ensures Counted(Next(s, a))
  {
    if a.Step? && a.t < |s.threads| {
      StepCounted(s, a.t, a.victim);
    } else if a.RunNow? && a.t < |s.threads| && Top(s.threads[a.t]).mode.Running? {
      WithUndeferredPlaced(s, a.t);
      RunNowCounted(s, a.t);
    } else if a.Spawn? && a.t < |s.threads| && Top(s.threads[a.t]).mode.Running? {
      SpawnCounted(s, a.t, a.blocks);
    } else {
      CountersStay(s, Next(s, a));
    }
  }

  // ---------- what a counter tells ----------

  lemma HasChild(s: State, c: nat) returns (x: nat)
    requires Tables(s) && Counted(s) && c < |s.parent| && s.numChildren[c] != 0
    ensures |s.threads| <= x < |s.life| && s.parent[x] == c && CountsAsChild(s.life[x])
  {
    assert Children(s, c) != {};
    x :| x in Children(s, c);
  }

  lemma HasBlocking(s: State, c: nat) returns (x: nat)
    requires Tables(s) && Counted(s) && c < |s.parent| && s.numBlocking[c] != 0
    ensures |s.threads| <= x < |s.life| && s.parent[x] == c && CountsAsBlocking(s.life[x])
  {
    assert Blocking(s, c) != {};
    x :| x in Blocking(s, c);
  }
}
