/**
What the calls of a task amount to, over all runs: a taskwait and a task exit are over only when those they wait for
have finished, every task is started once and run to its end, and a barrier call passes one barrier.
*/
module TaskCalls {
  import opened Arith
  import opened TaskScheduler
  import opened TaskPlacement
  import opened TaskKinds
  import opened TaskCounters
  import opened TaskBarrier
  import opened TaskLives
  import opened TaskRuns

  /** The k-th frame of thread t's stack is task c's. */
  predicate HasFrame(s: State, t: nat, k: nat, c: nat) {
    t < |s.threads| && k < |s.threads[t].stack| && s.threads[t].stack[k].task == c
  }

  /** The state after action a and then any run. */
  function After(s: State, a: Action, schedule: seq<Action>): (r: State)
    requires Inv(s)
    ensures Inv(r)
  {
    NextInv(s, a);
    ExecInv(Next(s, a), schedule);
    Exec(Next(s, a), schedule)
  }

  // ---------- taskwait ----------

  /** Task c is in its taskwait: testing, or looking for another task to run. */
  predicate InWait(s: State, t: nat, k: nat, c: nat) {
    HasFrame(s, t, k, c) && (s.threads[t].stack[k].mode.WaitCheck? || s.threads[t].stack[k].mode.WaitTake?)
  }

  /** The deferred children of c among the first n tasks have left it. */
  predicate ChildrenLeft(s: State, c: nat, n: nat)
    requires Tables(s)
  {
    forall x :: |s.threads| <= x < |s.life| && x < n && s.parent[x] == c && s.kinds[x].Deferred?
      ==> s.life[x].Left? || s.life[x].Done?
  }

  lemma ChildrenStayLeft(s: State, a: Action, c: nat, n: nat)
    requires Inv(s) && a.t < |s.threads| && Tables(Next(s, a)) && n <= |s.life| && ChildrenLeft(s, c, n)
    ensures ChildrenLeft(Next(s, a), c, n)
  {
    NextLives(s, a);
  }

  /** A task that is waiting is creating nobody, so a child it has counted out is one that has left. */
  lemma NoneCounted(s: State, t: nat, c: nat)
    requires Inv(s) && t < |s.threads| && Top(s.threads[t]).task == c && Top(s.threads[t]).mode.WaitCheck?
    requires s.numChildren[c] == 0
    ensures ChildrenLeft(s, c, |s.life|)
  {
    assert |Children(s, c)| == 0;
    forall x | |s.threads| <= x < |s.life| && s.parent[x] == c && s.kinds[x].Deferred?
      ensures s.life[x].Left? || s.life[x].Done?
    {
      assert x !in Children(s, c);
      NotBeingCreated(s, t, x);
    }
  }

  /** Who is being created has the code running on top of some stack for its parent. */
  lemma NotBeingCreated(s: State, t: nat, x: nat)
    requires Placed(s) && t < |s.threads| && x < |s.life| && s.parent[x] == Top(s.threads[t]).task
    requires !Top(s.threads[t]).mode.Spawning?
    ensures !s.life[x].Spawned?
  {
    assert ThreadOk(s, t) && FrameOk(s, t, |s.threads[t].stack| - 1);
    if s.life[x].Spawned? {
      CreatorOnTop(s, x);
    }
  }

  lemma CreatorOnTop(s: State, x: nat)
    requires Placed(s) && x < |s.life| && s.life[x].Spawned?
    ensures var u := s.life[x].t;
      && u < |s.threads| && Top(s.threads[u]).mode.Spawning?
      && s.parent[x] == Top(s.threads[u]).task && s.life[s.parent[x]] == Active(u)
  {
    var u := s.life[x].t;
    assert Located(s, x) && ThreadOk(s, u) && FrameOk(s, u, |s.threads[u].stack| - 1);
  }

  /** Whether a frame beneath the top, or on another thread's stack, is affected by an action: it is not. */
  lemma FrameStays(s: State, a: Action, t: nat, k: nat)
    requires Placed(s) && a.t < |s.threads| && t < |s.threads| && k < |s.threads[t].stack| && Tables(Next(s, a))
    requires a.t != t || k < |s.threads[t].stack| - 1
    ensures var r := Next(s, a);
      && |r.threads| == |s.threads| && k < |r.threads[t].stack| && r.threads[t].stack[k] == s.threads[t].stack[k]
  {
    NextStacks(s, a);
    if a.t == t { BeneathStays(s.threads[t].stack, Next(s, a).threads[t].stack, k); }
  }

  lemma BeneathStays(a: seq<Frame>, b: seq<Frame>, k: nat)
    requires StackGoesOn(a, b) && k < |a| - 1
    ensures k < |b| && b[k] == a[k]
  {
    assert a[..|a| - 1][k] == a[k];
    if TopStays(a, b) {
      assert b[..|a| - 1][k] == b[k];
    } else if Pushed(a, b) {
      assert b[..|a|][..|a| - 1][k] == b[k];
    }
  }

  lemma WaitStep(s: State, a: Action, t: nat, k: nat, c: nat)
    requires Inv(s) && a.t < |s.threads| && InWait(s, t, k, c) && Tables(Next(s, a))
    ensures InWait(Next(s, a), t, k, c) || ChildrenLeft(s, c, |s.life|)
  {
    if a.t != t || k < |s.threads[t].stack| - 1 {
      WaitBeneath(s, a, t, k, c);
    } else if Top(s.threads[t]).mode.WaitCheck? && s.numChildren[c] == 0 {
      NoneCounted(s, t, c);
    } else {
      WaitGoesOn(s, a, t, c);
    }
  }

  lemma WaitBeneath(s: State, a: Action, t: nat, k: nat, c: nat)
    requires Placed(s) && a.t < |s.threads| && InWait(s, t, k, c) && Tables(Next(s, a))
    requires a.t != t || k < |s.threads[t].stack| - 1
    ensures InWait(Next(s, a), t, k, c)
  {
    FrameStays(s, a, t, k);
  }

  lemma WaitGoesOn(s: State, a: Action, t: nat, c: nat)
    requires Tables(s) && a.t == t < |s.threads| && InWait(s, t, |s.threads[t].stack| - 1, c)
    requires Top(s.threads[t]).mode.WaitCheck? ==> s.numChildren[c] != 0
    ensures InWait(Next(s, a), t, |s.threads[t].stack| - 1, c)
  {
    if a.Step? && Top(s.threads[t]).mode.WaitTake? { TakeResumes(s, t, a.victim, WaitCheck); }
  }

  /** Whether it finds a task or not, a take leaves the one that looked at the point where it goes on. */
  lemma TakeResumes(s: State, t: nat, victim: nat, resume: Mode)
    requires Tables(s) && t < |s.threads|
    ensures var (r, k) := (Take(s, t, victim, resume), |s.threads[t].stack| - 1);
      HasFrame(r, t, k, Top(s.threads[t]).task) && r.threads[t].stack[k].mode == resume
  {
  }

  /** In a taskwait, or past it with the children that were there at the call gone. */
  lemma {:induction false} WaitRun(s: State, schedule: seq<Action>, t: nat, k: nat, c: nat, n: nat)
    requires Inv(s) && c < |s.parent| && n <= |s.life| && (InWait(s, t, k, c) || ChildrenLeft(s, c, n))
    ensures var r := Exec(s, schedule); Inv(r) && (InWait(r, t, k, c) || ChildrenLeft(r, c, n))
    decreases |schedule|
  {
    if schedule == [] {
    } else {
      var a := schedule[0];
      NextInv(s, a);
      if a.t < |s.threads| {
        NextLives(s, a);
        if InWait(s, t, k, c) { WaitStep(s, a, t, k, c); }
        if ChildrenLeft(s, c, n) { ChildrenStayLeft(s, a, c, n); }
      }
      WaitRun(Next(s, a), schedule[1..], t, k, c, n);
    }
  }

  lemma WaitFrom(s: State, m: State, t: nat, k: nat, c: nat, schedule: seq<Action>)
    requires Inv(s) && HasFrame(s, t, k, c) && k == |s.threads[t].stack| - 1
    requires Top(s.threads[t]).mode.Running? && m == Next(s, TaskWait(t))
    ensures InWait(After(s, TaskWait(t), schedule), t, k, c)
         || ChildrenLeft(After(s, TaskWait(t), schedule), c, |s.life|)
  {
    NextInv(s, TaskWait(t));
    assert InWait(m, t, k, c);
    WaitRun(m, schedule, t, k, c, |s.life|);
  }

  /**
  taskwait waits: after the call, under every schedule, the task is still in its taskwait until every deferred child
  it had at the call has left it.
  */
  lemma WaitWaits(r: State, t: nat, schedule: seq<Action>)
    requires Reachable(r) && Tables(r) && t < |r.threads| && Top(r.threads[t]).mode.Running?
    ensures Inv(r)
    ensures var (q, k, c) := (After(r, TaskWait(t), schedule), |r.threads[t].stack| - 1, Top(r.threads[t]).task);
      InWait(q, t, k, c) || ChildrenLeft(q, c, |r.life|)
  {
    ReachableInv(r);
    WaitFrom(r, Next(r, TaskWait(t)), t, |r.threads[t].stack| - 1, Top(r.threads[t]).task, schedule);
  }

  // ---------- task exit ----------

  /** Task c is in its exit and has not yet seen its blocking children done. */
  predicate InExit(s: State, t: nat, k: nat, c: nat) {
    && HasFrame(s, t, k, c) && IsExit(s.threads[t].stack[k].mode) && !s.threads[t].stack[k].mode.ExitBlocking?
  }

  /** Task c is leaving or has left, and no child that blocks it is unfinished. */
  predicate LeftLast(s: State, c: nat)
    requires Tables(s)
  {
    && c < |s.life| && (s.life[c].Left? || s.life[c].Done?)
    && forall x :: |s.threads| <= x < |s.life| && s.parent[x] == c && s.kinds[x] == Deferred(true) ==> s.life[x].Done?
  }

  /** Who has left creates nobody any more. */
  lemma StaysLast(s: State, a: Action, c: nat)
    requires Inv(s) && a.t < |s.threads| && Tables(Next(s, a)) && LeftLast(s, c)
    ensures LeftLast(Next(s, a), c)
  {
    NextLives(s, a);
    if Top(s.threads[a.t]).mode.Running? { RunningIsActive(s, a.t); }
    LastOnes(s, Next(s, a), a.t, c);
  }

  lemma RunningIsActive(s: State, t: nat)
    requires Placed(s) && t < |s.threads| && Top(s.threads[t]).mode.Running?
    ensures s.life[Top(s.threads[t]).task] == Active(t)
  {
    assert ThreadOk(s, t) && FrameOk(s, t, |s.threads[t].stack| - 1);
  }

  lemma LastOnes(s: State, r: State, t: nat, c: nat)
    requires Tables(s) && Tables(r) && t < |s.threads| && LivesGoOn(s, r, t) && LeftLast(s, c)
    requires Top(s.threads[t]).mode.Running? ==> s.life[Top(s.threads[t]).task] == Active(t)
    ensures LeftLast(r, c)
  {
    forall x | |s.life| <= x < |r.life| ensures r.parent[x] != c {
      assert Born(s, r, t, x);
    }
    forall x | |r.threads| <= x < |s.life| && r.parent[x] == c && r.kinds[x] == Deferred(true)
      ensures r.life[x].Done?
    {
      assert s.parent[x] == c && s.kinds[x] == Deferred(true) && LifeStep(s.life[x], r.life[x]);
    }
  }

  lemma NoneBlocks(s: State, t: nat, c: nat)
    requires Inv(s) && t < |s.threads| && Top(s.threads[t]).task == c && Top(s.threads[t]).mode.ExitCheck?
    requires s.numBlocking[c] == 0
    ensures LeftLast(s, c)
  {
    assert ThreadOk(s, t) && FrameOk(s, t, |s.threads[t].stack| - 1);
    assert |Blocking(s, c)| == 0;
    forall x | |s.threads| <= x < |s.life| && s.parent[x] == c && s.kinds[x] == Deferred(true)
      ensures s.life[x].Done?
    {
      assert x !in Blocking(s, c);
      NotBeingCreated(s, t, x);
    }
  }

  lemma ExitCallStep(s: State, a: Action, t: nat, k: nat, c: nat)
    requires Inv(s) && a.t < |s.threads| && InExit(s, t, k, c) && Tables(Next(s, a))
    ensures InExit(Next(s, a), t, k, c) || LeftLast(s, c)
  {
    if a.t != t || k < |s.threads[t].stack| - 1 {
      ExitBeneath(s, a, t, k, c);
    } else if Top(s.threads[t]).mode.ExitCheck? && s.numBlocking[c] == 0 {
      NoneBlocks(s, t, c);
    } else {
      ExitGoesOn(s, a, t, c);
    }
  }

  lemma ExitBeneath(s: State, a: Action, t: nat, k: nat, c: nat)
    requires Placed(s) && a.t < |s.threads| && InExit(s, t, k, c) && Tables(Next(s, a))
    requires a.t != t || k < |s.threads[t].stack| - 1
    ensures InExit(Next(s, a), t, k, c)
  {
    FrameStays(s, a, t, k);
  }

  lemma ExitGoesOn(s: State, a: Action, t: nat, c: nat)
    requires Tables(s) && a.t == t < |s.threads| && InExit(s, t, |s.threads[t].stack| - 1, c)
    requires Top(s.threads[t]).mode.ExitCheck? ==> s.numBlocking[c] != 0
    ensures InExit(Next(s, a), t, |s.threads[t].stack| - 1, c)
  {
    if a.Step? { ExitStepStays(s, t, a.victim, c); }
  }

  lemma ExitStepStays(s: State, t: nat, victim: nat, c: nat)
    requires Tables(s) && t < |s.threads| && InExit(s, t, |s.threads[t].stack| - 1, c)
    requires Top(s.threads[t]).mode.ExitCheck? ==> s.numBlocking[c] != 0
    ensures InExit(ExitStep(s, t, victim), t, |s.threads[t].stack| - 1, c)
  {
    if Top(s.threads[t]).mode.ExitTake? { TakeResumes(s, t, victim, ExitCheck); }
  }

  lemma {:induction false} ExitRun(s: State, schedule: seq<Action>, t: nat, k: nat, c: nat)
    requires Inv(s) && (InExit(s, t, k, c) || LeftLast(s, c))
    ensures var r := Exec(s, schedule); Inv(r) && (InExit(r, t, k, c) || LeftLast(r, c))
    decreases |schedule|
  {
    if schedule == [] {
    } else {
      var a := schedule[0];
      NextInv(s, a);
      if a.t < |s.threads| {
        if InExit(s, t, k, c) { ExitCallStep(s, a, t, k, c); }
        if LeftLast(s, c) { StaysLast(s, a, c); }
      }
      ExitRun(Next(s, a), schedule[1..], t, k, c);
    }
  }

  lemma ExitFrom(s: State, m: State, t: nat, k: nat, c: nat, schedule: seq<Action>)
    requires Inv(s) && t < |s.threads| && HasFrame(s, t, k, c) && k == |s.threads[t].stack| - 1 >= 1
    requires Top(s.threads[t]).mode.Running? && m == Next(s, Exit(t))
    ensures InExit(After(s, Exit(t), schedule), t, k, c) || LeftLast(After(s, Exit(t), schedule), c)
  {
    NextInv(s, Exit(t));
    ExitBegins(s, t);
    ExitRun(m, schedule, t, k, c);
  }

  /**
  A task that has called exit stays in it, under every schedule, until none of the children that block it is
  unfinished; so it returns to the one beneath only then.
  */
  lemma ExitWaits(r: State, t: nat, schedule: seq<Action>)
    requires Reachable(r) && Tables(r) && t < |r.threads| && Top(r.threads[t]).mode.Running?
    requires |r.threads[t].stack| >= 2
    ensures Inv(r)
    ensures var (q, k, c) := (After(r, Exit(t), schedule), |r.threads[t].stack| - 1, Top(r.threads[t]).task);
      InExit(q, t, k, c) || LeftLast(q, c)
  {
    ReachableInv(r);
    ExitFrom(r, Next(r, Exit(t)), t, |r.threads[t].stack| - 1, Top(r.threads[t]).task, schedule);
  }

  lemma ExitBegins(s: State, t: nat)
    requires Tables(s) && t < |s.threads| && Top(s.threads[t]).mode.Running? && |s.threads[t].stack| >= 2
    ensures InExit(Next(s, Exit(t)), t, |s.threads[t].stack| - 1, Top(s.threads[t]).task)
  {
  }

  // ---------- every task is started once ----------

  /** The step from s to r puts task x on top of thread t's stack. */
  predicate Starts(s: State, r: State, t: nat, x: nat) {
    && t < |s.threads| && t < |r.threads| && |r.threads[t].stack| == |s.threads[t].stack| + 1
    && Top(r.threads[t]).task == x
  }

  /** How often task x is put on a stack in a run. */
  function StartsIn(s: State, schedule: seq<Action>, x: nat): nat
    requires Inv(s)
    decreases |schedule|
  {
    if schedule == [] then 0
    else
      NextInv(s, schedule[0]);
      var r := Next(s, schedule[0]);
      One(Starts(s, r, schedule[0].t, x)) + StartsIn(r, schedule[1..], x)
  }

  predicate IsActive(s: State, x: nat) {
    x < |s.life| && s.life[x].Active?
  }

  predicate HasStarted(s: State, x: nat) {
    x < |s.life| && !Unstarted(s.life[x])
  }

  lemma StartMakesActive(s: State, a: Action, x: nat)
    requires Placed(s) && a.t < |s.threads| && Placed(Next(s, a)) && Starts(s, Next(s, a), a.t, x)
    ensures IsActive(Next(s, a), x) && !IsActive(s, x)
  {
    NextStacks(s, a);
    NewTopIsActive(Next(s, a), a.t, s.threads[a.t].stack);
    if IsActive(s, x) {
      ActiveStays(s, a, x);
    }
  }

  lemma NewTopIsActive(r: State, t: nat, a: seq<Frame>)
    requires Placed(r) && t < |r.threads| && StackGoesOn(a, r.threads[t].stack) && |r.threads[t].stack| == |a| + 1
    ensures IsActive(r, Top(r.threads[t]).task)
  {
    assert ThreadOk(r, t) && FrameOk(r, t, |r.threads[t].stack| - 1);
  }

  /** Nobody who is active leaves the place on the stack where the task is. */
  lemma ActiveStays(s: State, a: Action, x: nat)
    requires Placed(s) && a.t < |s.threads| && Placed(Next(s, a)) && IsActive(s, x)
    ensures !Starts(s, Next(s, a), a.t, x)
  {
    var u, k := PlaceOf(s, x);
    ActiveFrame(s, u, k);
    FrameTaskStays(s, a, u, k);
    if Starts(s, Next(s, a), a.t, x) {
      OnePlace(Next(s, a), u, k, a.t, |s.threads[a.t].stack|);
    }
  }

  lemma PlaceOf(s: State, x: nat) returns (u: nat, k: nat)
    requires Placed(s) && IsActive(s, x)
    ensures HasFrame(s, u, k, x) && u == s.life[x].t
  {
    u := s.life[x].t;
    assert Located(s, x);
    k :| 0 <= k < |s.threads[u].stack| && s.threads[u].stack[k].task == x;
  }

  lemma ActiveFrame(s: State, u: nat, k: nat)
    requires Placed(s) && u < |s.threads| && k < |s.threads[u].stack| && s.life[s.threads[u].stack[k].task].Active?
    ensures !s.threads[u].stack[k].mode.ExitBlocking?
  {
    assert ThreadOk(s, u) && FrameOk(s, u, k);
  }

  /** Nobody's frame goes but the top one's, at the end of its exit. */
  lemma FrameTaskStays(s: State, a: Action, u: nat, k: nat)
    requires Placed(s) && a.t < |s.threads| && u < |s.threads| && k < |s.threads[u].stack| && Tables(Next(s, a))
    requires !s.threads[u].stack[k].mode.ExitBlocking?
    ensures HasFrame(Next(s, a), u, k, s.threads[u].stack[k].task)
  {
    NextStacks(s, a);
    if u == a.t {
      var (b, b') := (s.threads[u].stack, Next(s, a).threads[u].stack);
      if k < |b| - 1 { BeneathStays(b, b', k); } else if Pushed(b, b') { assert b'[..|b|][k] == b'[k]; }
    }
  }

  /** A task on two stacks, or twice on one, is one and the same frame. */
  lemma OnePlace(s: State, u: nat, k: nat, t: nat, l: nat)
    requires Placed(s) && u < |s.threads| && t < |s.threads| && k < |s.threads[u].stack| && l < |s.threads[t].stack|
    requires s.threads[u].stack[k].task == s.threads[t].stack[l].task
    ensures u == t && k == l
  {
    assert ThreadOk(s, u) && FrameOk(s, u, k) && ThreadOk(s, t) && FrameOk(s, t, l);
  }

  lemma NewlyActiveStarts(s: State, a: Action, x: nat)
    requires Placed(s) && Kinded(s) && a.t < |s.threads| && Placed(Next(s, a))
    requires IsActive(Next(s, a), x) && !IsActive(s, x)
    ensures Starts(s, Next(s, a), a.t, x)
  {
    var u, k := PlaceOf(Next(s, a), x);
    NextStacks(s, a);
    if HasFrame(s, u, k, x) { WasActive(s, a, u, k); }
    OnTopNow(s, Next(s, a), a.t, u, k, x);
  }

  /** A frame that was not there has just been put on top. */
  lemma OnTopNow(s: State, r: State, t: nat, u: nat, k: nat, x: nat)
    requires Tables(s) && Tables(r) && t < |s.threads| && StacksGoOn(s, r, t)
    requires HasFrame(r, u, k, x) && !HasFrame(s, u, k, x)
    ensures Starts(s, r, t, x)
  {
    if u == t { NewFrame(s.threads[u].stack, r.threads[u].stack, k); }
  }

  lemma WasActive(s: State, a: Action, u: nat, k: nat)
    requires Placed(s) && Kinded(s) && a.t < |s.threads| && Placed(Next(s, a))
    requires u < |s.threads| && k < |s.threads[u].stack|
    requires IsActive(Next(s, a), s.threads[u].stack[k].task)
    ensures IsActive(s, s.threads[u].stack[k].task)
  {
    NextLives(s, a);
    OnStackHasStarted(s, u, k);
    assert LifeStep(s.life[s.threads[u].stack[k].task], Next(s, a).life[s.threads[u].stack[k].task]);
  }

  lemma OnStackHasStarted(s: State, u: nat, k: nat)
    requires Placed(s) && u < |s.threads| && k < |s.threads[u].stack|
    ensures var l := s.life[s.threads[u].stack[k].task]; l.Active? || l.CountedOut? || l.Left?
  {
    assert ThreadOk(s, u) && FrameOk(s, u, k);
  }

  lemma NewFrame(a: seq<Frame>, b: seq<Frame>, k: nat)
    requires k < |b| && StackGoesOn(a, b) && !(k < |a| && a[k].task == b[k].task)
    ensures |b| == |a| + 1 && k == |a|
  {
    if k < |a| - 1 {
      BeneathStays(a, b, k);
    }
  }

  lemma StartStep(s: State, a: Action, x: nat)
    requires Inv(s) && |s.threads| <= x && Inv(Next(s, a)) && a.t < |s.threads|
    ensures One(Starts(s, Next(s, a), a.t, x)) + One(HasStarted(s, x)) == One(HasStarted(Next(s, a), x))
  {
    NextLives(s, a);
    StartedFollows(s, Next(s, a), a.t, x);
    if Starts(s, Next(s, a), a.t, x) {
      StartMakesActive(s, a, x);
    } else if IsActive(Next(s, a), x) && !IsActive(s, x) {
      NewlyActiveStarts(s, a, x);
      assert false;
    }
  }

  lemma StartedFollows(s: State, r: State, t: nat, x: nat)
    requires Tables(s) && Tables(r) && t < |s.threads| && LivesGoOn(s, r, t)
    ensures HasStarted(r, x) <==> HasStarted(s, x) || (IsActive(r, x) && !IsActive(s, x))
    ensures IsActive(r, x) && !IsActive(s, x) ==> !HasStarted(s, x)
  {
    if x < |s.life| {
      assert LifeStep(s.life[x], r.life[x]);
    } else if x < |r.life| {
      assert Born(s, r, t, x);
    }
  }

  lemma {:induction false} StartRun(s: State, schedule: seq<Action>, x: nat)
    requires Inv(s) && |s.threads| <= x
    ensures StartsIn(s, schedule, x) + One(HasStarted(s, x)) == One(HasStarted(Exec(s, schedule), x))
    decreases |schedule|
  {
    if schedule == [] {
    } else {
      var a, r := schedule[0], Next(s, schedule[0]);
      NextInv(s, a);
      if a.t < |s.threads| {
        StartStep(s, a, x);
        TeamStays(s, a);
      }
      StartRun(r, schedule[1..], x);
      assert Exec(s, schedule) == Exec(r, schedule[1..]);
    }
  }

  /** In every run an explicit task is put on a stack once, or not yet if it is still being created or queued. */
  lemma RunsOnce(s: State, schedule: seq<Action>, x: nat)
    requires Init(s) && |s.threads| <= x
    ensures Inv(s) && StartsIn(s, schedule, x) == One(HasStarted(Run(s, schedule), x))
  {
    InitInv(s);
    StartRun(s, schedule, x);
  }

  // ---------- the barrier ----------

  /** Thread t's implicit task is in the barrier it entered after leaving e of them. */
  predicate InBarrier(s: State, t: nat, e: nat)
    requires Tables(s)
  {
    t < |s.threads| && s.threads[t].stack[0].mode.Bar? && s.threads[t].episode == e
  }

  /** It is out of that barrier and has not entered the next. */
  predicate PastBarrier(s: State, t: nat, e: nat)
    requires Tables(s)
  {
    t < |s.threads| && !s.threads[t].stack[0].mode.Bar? && s.threads[t].episode == e + 1
  }

  /** What a step does to the implicit task and the number of barriers left. */
  predicate BottomGoesOn(th: Thread, th': Thread)
    requires th.stack != [] && th'.stack != []
  {
    || (th'.episode == th.episode && th'.stack[0].mode.Bar? == th.stack[0].mode.Bar?)
    || (th'.episode == th.episode + 1 && th.stack[0].mode.Bar? && !th'.stack[0].mode.Bar?)
  }

  /** With another task on top, the implicit one stays as it is. */
  lemma BeneathBottom(s: State, r: State, t: nat)
    requires Tables(s) && Tables(r) && t < |s.threads| && t < |r.threads| && |s.threads[t].stack| >= 2
    requires StackGoesOn(s.threads[t].stack, r.threads[t].stack) && r.threads[t].episode == s.threads[t].episode
    ensures BottomGoesOn(s.threads[t], r.threads[t])
  {
    BeneathStays(s.threads[t].stack, r.threads[t].stack, 0);
  }

  lemma BarStepBottom(s: State, t: nat, victim: nat)
    requires Tables(s) && t < |s.threads| && Top(s.threads[t]).mode.Bar? && |s.threads[t].stack| == 1
    requires Tables(BarStep(s, t, victim))
    ensures BottomGoesOn(s.threads[t], BarStep(s, t, victim).threads[t])
  {
    match Top(s.threads[t]).mode.pc {
      case DrainTake =>
      case _ =>
    }
  }

  lemma ExitStepEpisode(s: State, t: nat, victim: nat)
    requires Tables(s) && t < |s.threads| && |ExitStep(s, t, victim).threads| == |s.threads|
    ensures ExitStep(s, t, victim).threads[t].episode == s.threads[t].episode
  {
  }

  /** A step of the implicit task outside the barrier. */
  lemma BareBottom(s: State, r: State, t: nat, victim: nat)
    requires Tables(s) && t < |s.threads| && |s.threads[t].stack| == 1
    requires !Top(s.threads[t]).mode.Bar? && !IsExit(Top(s.threads[t]).mode)
    requires r == Next(s, Step(t, victim)) && Tables(r) && |r.threads| == |s.threads|
    ensures BottomGoesOn(s.threads[t], r.threads[t])
  {
  }

  /** A step of a task that is not in the barrier. */
  lemma StepEpisode(s: State, r: State, t: nat, victim: nat)
    requires Tables(s) && t < |s.threads| && !Top(s.threads[t]).mode.Bar?
    requires r == Next(s, Step(t, victim)) && |r.threads| == |s.threads|
    ensures r.threads[t].episode == s.threads[t].episode
  {
    if IsExit(Top(s.threads[t]).mode) { ExitStepEpisode(s, t, victim); }
  }

  lemma StepBottom(s: State, r: State, t: nat, victim: nat)
    requires Placed(s) && t < |s.threads| && r == Next(s, Step(t, victim)) && Tables(r) && |r.threads| == |s.threads|
    requires StackGoesOn(s.threads[t].stack, r.threads[t].stack)
    ensures BottomGoesOn(s.threads[t], r.threads[t])
  {
    assert ThreadOk(s, t) && FrameOk(s, t, |s.threads[t].stack| - 1);
    if Top(s.threads[t]).mode.Bar? {
      BarStepBottom(s, t, victim);
    } else if |s.threads[t].stack| == 1 {
      BareBottom(s, r, t, victim);
    } else {
      StepEpisode(s, r, t, victim);
      BeneathBottom(s, r, t);
    }
  }

  lemma CallBottom(s: State, r: State, a: Action, t: nat)
    requires Tables(s) && a.t == t < |s.threads| && !a.Step? && !a.EnterBarrier?
    requires r == Next(s, a) && Tables(r) && |r.threads| == |s.threads|
    ensures BottomGoesOn(s.threads[t], r.threads[t])
  {
  }

  lemma OtherBottom(s: State, r: State, u: nat, t: nat)
    requires Tables(s) && Tables(r) && t < |s.threads| && u != t && OthersUndisturbed(s, r, u)
    ensures BottomGoesOn(s.threads[t], r.threads[t])
  {
    assert AtMostStolenFrom(s, r, t);
  }

  lemma NextUndisturbed(s: State, a: Action)
    requires Inv(s) && a.t < |s.threads| && Placed(Next(s, a))
    ensures OthersUndisturbed(s, Next(s, a), a.t)
  {
    if a.Step? { StepReady(s, a.t, a.victim); } else { CallReady(s, a); }
  }

  /** A step leaves a barrier or not, and enters one only by calling it; other threads' steps do neither. */
  lemma NextBottom(s: State, r: State, a: Action, t: nat)
    requires Inv(s) && a.t < |s.threads| && t < |s.threads| && r == Next(s, a) && Placed(r)
    requires a != EnterBarrier(t)
    ensures |r.threads| == |s.threads| && BottomGoesOn(s.threads[t], r.threads[t])
  {
    NextUndisturbed(s, a);
    if a.t != t {
      OtherBottom(s, r, a.t, t);
    } else {
      NextStacks(s, a);
      if a.Step? { StepBottom(s, r, t, a.victim); } else { CallBottom(s, r, a, t); }
    }
  }

  lemma {:induction false} BarrierRun(s: State, schedule: seq<Action>, t: nat, e: nat)
    requires Inv(s) && (InBarrier(s, t, e) || PastBarrier(s, t, e)) && EnterBarrier(t) !in schedule
    ensures var r := Exec(s, schedule); Inv(r) && (InBarrier(r, t, e) || PastBarrier(r, t, e))
    decreases |schedule|
  {
    if schedule == [] {
    } else {
      var a := schedule[0];
      NextInv(s, a);
      if a.t < |s.threads| { NextBottom(s, Next(s, a), a, t); }
      BarrierRun(Next(s, a), schedule[1..], t, e);
    }
  }

  lemma BarrierFrom(s: State, m: State, t: nat, schedule: seq<Action>)
    requires Inv(s) && t < |s.threads| && Top(s.threads[t]).mode.Running? && |s.threads[t].stack| == 1
    requires m == Next(s, EnterBarrier(t)) && EnterBarrier(t) !in schedule
    ensures InBarrier(After(s, EnterBarrier(t), schedule), t, s.threads[t].episode)
         || PastBarrier(After(s, EnterBarrier(t), schedule), t, s.threads[t].episode)
  {
    NextInv(s, EnterBarrier(t));
    BarrierBegins(s, t);
    BarrierRun(m, schedule, t, s.threads[t].episode);
  }

  lemma BarrierBegins(s: State, t: nat)
    requires Tables(s) && t < |s.threads| && Top(s.threads[t]).mode.Running? && |s.threads[t].stack| == 1
    requires Tables(Next(s, EnterBarrier(t)))
    ensures InBarrier(Next(s, EnterBarrier(t)), t, s.threads[t].episode)
  {
  }

  /**
  A barrier call passes one barrier: from the call on, under every schedule in which the thread does not call again,
  it is either still in the barrier or has left exactly that one, the next after those it had left at the call.
  */
  lemma BarrierPasses(r: State, t: nat, schedule: seq<Action>)
    requires Reachable(r) && Tables(r) && t < |r.threads| && Top(r.threads[t]).mode.Running?
    requires |r.threads[t].stack| == 1 && EnterBarrier(t) !in schedule
    ensures Inv(r)
    ensures var (q, e) := (After(r, EnterBarrier(t), schedule), r.threads[t].episode);
      InBarrier(q, t, e) || PastBarrier(q, t, e)
  {
    ReachableInv(r);
    BarrierFrom(r, Next(r, EnterBarrier(t)), t, schedule);
  }
}
