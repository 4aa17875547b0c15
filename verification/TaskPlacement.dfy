/** Every task of the scheduler is in exactly one place, and that place fits what its owner is doing. */
module TaskPlacement {
  import opened TaskScheduler

  predicate IsExit(m: Mode) {
    m.ExitPending? || m.ExitParent? || m.ExitCheck? || m.ExitTake? || m.ExitBlocking?
  }

  /** A suspended task is never in the middle of a single access. */
  predicate CanSuspend(m: Mode) {
    m.Running? || m.WaitCheck? || m.ExitCheck? || m == Bar(DrainCheck)
  }

  /** The life of a task whose frame on thread t's stack is in mode m. */
  function LifeIn(m: Mode, t: nat): Life {
    if m.ExitParent? then CountedOut(t)
    else if m.ExitCheck? || m.ExitTake? || m.ExitBlocking? then Left(t)
    else Active(t)
  }

  predicate FrameOk(s: State, t: nat, k: nat)
    requires Tables(s) && t < |s.threads| && k < |s.threads[t].stack|
  {
    var f := s.threads[t].stack[k];
    && (if k == 0 then f.task == t else f.task >= |s.threads|)
    && (f.mode.Bar? ==> k == 0)
    && (IsExit(f.mode) ==> k > 0)
    && (k + 1 < |s.threads[t].stack| ==> CanSuspend(f.mode))
    && s.life[f.task] == LifeIn(f.mode, t)
    && (f.mode.Spawning? ==>
          && f.mode.child < |s.parent| && f.mode.stage <= 3
          && s.life[f.mode.child] == Spawned(t, f.mode.stage) && s.parent[f.mode.child] == f.task)
  }

  predicate ThreadOk(s: State, t: nat)
    requires Tables(s) && t < |s.threads|
  {
    var th := s.threads[t];
    && (forall k :: 0 <= k < |th.stack| ==> FrameOk(s, t, k))
    && (forall i, j :: 0 <= i < j < |th.stack| ==> th.stack[i].task != th.stack[j].task)
    && (forall j :: 0 <= j < |th.queue| ==> s.life[th.queue[j]] == Queued(t))
    && (forall i, j :: 0 <= i < j < |th.queue| ==> th.queue[i] != th.queue[j])
    && th.suspended == |th.stack| - 1 - (if |th.stack| >= 2 && th.stack[0].mode.Bar? then 1 else 0)
  }

  predicate OnStack(s: State, t: nat, x: nat) {
    t < |s.threads| && exists k :: 0 <= k < |s.threads[t].stack| && s.threads[t].stack[k].task == x
  }

  /** A task's life names a place where the task is found. */
  predicate Located(s: State, x: nat)
    requires Tables(s) && x < |s.life|
  {
    match s.life[x]
    case Spawned(t, stage) => t < |s.threads| && Top(s.threads[t]).mode == Spawning(x, stage)
    case Queued(t) => t < |s.threads| && x in s.threads[t].queue
    case Active(t) => OnStack(s, t, x)
    case CountedOut(t) => OnStack(s, t, x)
    case Left(t) => OnStack(s, t, x)
    case Done => true
  }

  /** Only tasks that have started have children. */
  predicate ParentStarted(s: State, x: nat)
    requires Tables(s) && x < |s.life|
  {
    s.parent[x] >= 0 ==> !s.life[s.parent[x]].Spawned? && !s.life[s.parent[x]].Queued?
  }

  predicate Placed(s: State) {
    && Tables(s) && |s.threads| >= 1
    && (forall t :: 0 <= t < |s.threads| ==> ThreadOk(s, t))
    && (forall x :: 0 <= x < |s.life| ==> Located(s, x) && ParentStarted(s, x))
  }

  lemma InitPlaced(s: State)
    requires Init(s)
    ensures Placed(s)
  {
    forall x | 0 <= x < |s.life| ensures Located(s, x) {
      assert s.threads[x].stack[0].task == x;
    }
  }

  // ---------- the elementary moves ----------
  //
  // A step of the scheduler is one of these moves, or taking a task out of one place and putting
  // it into another.  A task in between counts as Done.

  /** The top task of thread t goes on to mode m. */
  function Retop(s: State, t: nat, m: Mode): (r: State)
    requires Tables(s) && t < |s.threads|
    ensures Tables(r) && |r.threads| == |s.threads| && |r.life| == |s.life|
  {
    SetMode(s, t, m).(life := s.life[Top(s.threads[t]).task := LifeIn(m, t)])
  }

  /** The top task of thread t is at a further stage of creating x. */
  function Restage(s: State, t: nat, x: nat, stage: nat): (r: State)
    requires Tables(s) && t < |s.threads| && x < |s.life|
    ensures Tables(r) && |r.threads| == |s.threads| && |r.life| == |s.life|
  {
    SetMode(s, t, Spawning(x, stage)).(life := s.life[x := Spawned(t, stage)])
  }

  function TakeTail(s: State, t: nat): (r: State)
    requires Tables(s) && t < |s.threads| && s.threads[t].queue != []
    ensures Tables(r) && |r.threads| == |s.threads| && |r.life| == |s.life|
  {
    var q := s.threads[t].queue;
    s.(threads := s.threads[t := s.threads[t].(queue := q[..|q| - 1])], life := s.life[q[|q| - 1] := Done])
  }

  function TakeHead(s: State, v: nat): (r: State)
    requires Tables(s) && v < |s.threads| && s.threads[v].queue != []
    ensures Tables(r) && |r.threads| == |s.threads| && |r.life| == |s.life|
  {
    var th := s.threads[v];
    s.(threads := s.threads[v := th.(queue := th.queue[1..], stolen := th.stolen + 1)],
        life := s.life[th.queue[0] := Done])
  }

  /** The creator lets go of the task it has just created. */
  function Release(s: State, t: nat, x: nat): (r: State)
    requires Tables(s) && t < |s.threads| && x < |s.life|
    ensures Tables(r) && |r.threads| == |s.threads| && |r.life| == |s.life|
  {
    SetMode(s, t, Running).(life := s.life[x := Done])
  }

  function Enqueue(s: State, t: nat, x: nat): (r: State)
    requires Tables(s) && t < |s.threads| && x < |s.life|
    ensures Tables(r) && |r.threads| == |s.threads| && |r.life| == |s.life|
  {
    s.(threads := s.threads[t := s.threads[t].(queue := s.threads[t].queue + [x])], life := s.life[x := Queued(t)])
  }

  /** Same tasks in the same places; only counters may differ. */
  predicate SamePlaces(s: State, r: State) {
    && r.threads == s.threads && r.parent == s.parent && r.life == s.life && r.kinds == s.kinds
    && |r.numChildren| == |s.numChildren| && |r.numBlocking| == |s.numBlocking|
  }

  lemma SamePlacesPlaced(s: State, r: State)
    requires Placed(s) && SamePlaces(s, r)
    ensures Placed(r)
  {
    forall t | 0 <= t < |r.threads| ensures ThreadOk(r, t) {
      assert ThreadOk(s, t);
      forall k | 0 <= k < |r.threads[t].stack| ensures FrameOk(r, t, k) {
        assert FrameOk(s, t, k);
      }
    }
    forall x | 0 <= x < |r.life| ensures Located(r, x) && ParentStarted(r, x) {
      assert Located(s, x) && ParentStarted(s, x);
    }
  }

  lemma FramesStay(s: State, r: State, u: nat)
    requires Placed(s) && Tables(r) && |r.threads| == |s.threads| && u < |s.threads|
    requires r.threads[u].stack == s.threads[u].stack && r.threads[u].suspended == s.threads[u].suspended
    requires |s.life| <= |r.life|
    requires forall x :: 0 <= x < |s.life| ==>
      r.parent[x] == s.parent[x] && (r.life[x] == s.life[x] || s.life[x].Queued? || s.life[x].Done? || s.life[x].t != u)
    requires forall j :: 0 <= j < |r.threads[u].queue| ==> r.life[r.threads[u].queue[j]] == Queued(u)
    requires forall i, j :: 0 <= i < j < |r.threads[u].queue| ==> r.threads[u].queue[i] != r.threads[u].queue[j]
    ensures ThreadOk(r, u)
  {
    assert ThreadOk(s, u);
    forall k | 0 <= k < |r.threads[u].stack| ensures FrameOk(r, u, k) {
      assert FrameOk(s, u, k);
    }
  }

  lemma StacksStay(s: State, r: State, x: nat)
    requires Placed(s) && Tables(r) && |r.threads| == |s.threads| && x < |s.life| && x < |r.life|
    requires r.life[x] == s.life[x] && !s.life[x].Queued?
    requires forall u :: 0 <= u < |s.threads| ==> r.threads[u].stack == s.threads[u].stack
    ensures Located(r, x)
  {
    assert Located(s, x);
  }

  lemma TakeTailPlaced(s: State, t: nat)
    requires Placed(s) && t < |s.threads| && s.threads[t].queue != []
    ensures Placed(TakeTail(s, t))
  {
    var r := TakeTail(s, t);
    forall u | 0 <= u < |r.threads| ensures ThreadOk(r, u) {
      TakeTailThread(s, t, u);
    }
    forall y | 0 <= y < |r.life| ensures Located(r, y) && ParentStarted(r, y) {
      TakeTailLocated(s, t, y);
    }
  }

  lemma TakeTailThread(s: State, t: nat, u: nat)
    requires Placed(s) && t < |s.threads| && s.threads[t].queue != [] && u < |s.threads|
    ensures ThreadOk(TakeTail(s, t), u)
  {
    assert ThreadOk(s, u) && ThreadOk(s, t);
    FramesStay(s, TakeTail(s, t), u);
  }

  lemma TakeTailLocated(s: State, t: nat, y: nat)
    requires Placed(s) && t < |s.threads| && s.threads[t].queue != [] && y < |s.life|
    ensures Located(TakeTail(s, t), y) && ParentStarted(TakeTail(s, t), y)
  {
    var r, q := TakeTail(s, t), s.threads[t].queue;
    assert ThreadOk(s, t) && s.life[q[|q| - 1]] == Queued(t);
    assert Located(s, y) && ParentStarted(s, y);
    if y != q[|q| - 1] && !s.life[y].Queued? {
      StacksStay(s, r, y);
    }
  }

  lemma TakeHeadPlaced(s: State, v: nat)
    requires Placed(s) && v < |s.threads| && s.threads[v].queue != []
    ensures Placed(TakeHead(s, v))
  {
    var r := TakeHead(s, v);
    forall u | 0 <= u < |r.threads| ensures ThreadOk(r, u) {
      TakeHeadThread(s, v, u);
    }
    forall y | 0 <= y < |r.life| ensures Located(r, y) && ParentStarted(r, y) {
      TakeHeadLocated(s, v, y);
    }
  }

  lemma TakeHeadThread(s: State, v: nat, u: nat)
    requires Placed(s) && v < |s.threads| && s.threads[v].queue != [] && u < |s.threads|
    ensures ThreadOk(TakeHead(s, v), u)
  {
    assert ThreadOk(s, u) && ThreadOk(s, v);
    FramesStay(s, TakeHead(s, v), u);
  }

  lemma TakeHeadLocated(s: State, v: nat, y: nat)
    requires Placed(s) && v < |s.threads| && s.threads[v].queue != [] && y < |s.life|
    ensures Located(TakeHead(s, v), y) && ParentStarted(TakeHead(s, v), y)
  {
    var r, q := TakeHead(s, v), s.threads[v].queue;
    assert ThreadOk(s, v) && s.life[q[0]] == Queued(v);
    assert Located(s, y) && ParentStarted(s, y);
    if y != q[0] && !s.life[y].Queued? {
      StacksStay(s, r, y);
    }
  }

  lemma EnqueuePlaced(s: State, t: nat, x: nat)
    requires Placed(s) && t < |s.threads| && |s.threads| <= x < |s.life| && s.life[x] == Done
    requires forall y :: 0 <= y < |s.life| ==> s.parent[y] != x
    ensures Placed(Enqueue(s, t, x))
  {
    var r := Enqueue(s, t, x);
    forall u | 0 <= u < |r.threads| ensures ThreadOk(r, u) {
      assert ThreadOk(s, u);
      FramesStay(s, r, u);
    }
    forall y | 0 <= y < |r.life| ensures Located(r, y) && ParentStarted(r, y) {
      EnqueueLocated(s, t, x, y);
    }
  }

  lemma EnqueueLocated(s: State, t: nat, x: nat, y: nat)
    requires Placed(s) && t < |s.threads| && |s.threads| <= x < |s.life| && s.life[x] == Done && y < |s.life|
    requires s.parent[y] != x && Tables(Enqueue(s, t, x))
    ensures Located(Enqueue(s, t, x), y) && ParentStarted(Enqueue(s, t, x), y)
  {
    var r := Enqueue(s, t, x);
    assert Located(s, y) && ParentStarted(s, y);
    if y == x {
      assert x == r.threads[t].queue[|s.threads[t].queue|];
    } else if !s.life[y].Queued? {
      StacksStay(s, r, y);
    } else if s.life[y] == Queued(t) {
      var j :| 0 <= j < |s.threads[t].queue| && s.threads[t].queue[j] == y;
      assert r.threads[t].queue[j] == y;
    }
  }

  /** Thread t's stack may change at its top; every other thread is as before. */
  lemma OthersStay(s: State, r: State, t: nat, u: nat)
    requires Placed(s) && Tables(r) && |r.threads| == |s.threads| && t < |s.threads| && u < |s.threads| && u != t
    requires r.threads[u] == s.threads[u] && |s.life| <= |r.life|
    requires forall x :: 0 <= x < |s.life| ==>
      r.parent[x] == s.parent[x] && (r.life[x] == s.life[x] || s.life[x].Done? || s.life[x].t == t)
    ensures ThreadOk(r, u)
  {
    assert ThreadOk(s, u);
    FramesStay(s, r, u);
  }

  lemma SwitchTop(s: State, t: nat, x: nat)
    requires Placed(s) && t < |s.threads| && |s.threads| <= x < |s.life| && s.life[x] == Done
    requires CanSuspend(Top(s.threads[t]).mode)
    ensures Tables(Switch(s, t, x)) && ThreadOk(Switch(s, t, x), t)
  {
    var r, th := Switch(s, t, x), s.threads[t];
    SwitchAbove(s, t, x);
    assert ThreadOk(s, t) && r.threads[t].queue == th.queue && Top(th) == th.stack[|th.stack| - 1];
    forall k | 0 <= k < |r.threads[t].stack| ensures FrameOk(r, t, k) && (k < |th.stack| ==> th.stack[k].task != x) {
      if k < |th.stack| { SwitchBelow(s, t, x, k); }
    }
  }

  lemma SwitchAbove(s: State, t: nat, x: nat)
    requires Placed(s) && t < |s.threads| && |s.threads| <= x < |s.life| && s.life[x] == Done
    ensures Tables(Switch(s, t, x)) && FrameOk(Switch(s, t, x), t, |s.threads[t].stack|)
  {
  }

  lemma SwitchBelow(s: State, t: nat, x: nat, k: nat)
    requires Placed(s) && t < |s.threads| && |s.threads| <= x < |s.life| && s.life[x] == Done
    requires CanSuspend(Top(s.threads[t]).mode) && k < |s.threads[t].stack|
    ensures Tables(Switch(s, t, x)) && FrameOk(Switch(s, t, x), t, k) && s.threads[t].stack[k].task != x
  {
    assert ThreadOk(s, t) && FrameOk(s, t, k);
  }

  lemma SwitchPlaced(s: State, t: nat, x: nat)
    requires Placed(s) && t < |s.threads| && |s.threads| <= x < |s.life| && s.life[x] == Done
    requires CanSuspend(Top(s.threads[t]).mode)
    ensures Placed(Switch(s, t, x))
  {
    var r, th := Switch(s, t, x), s.threads[t];
    SwitchTop(s, t, x);
    forall u | 0 <= u < |r.threads| ensures ThreadOk(r, u) {
      if u != t { OthersStay(s, r, t, u); }
    }
    forall y | 0 <= y < |r.life| ensures Located(r, y) && ParentStarted(r, y) {
      SwitchLocated(s, t, x, y);
    }
  }

  lemma SwitchLocated(s: State, t: nat, x: nat, y: nat)
    requires Placed(s) && t < |s.threads| && |s.threads| <= x < |s.life| && s.life[x] == Done && y < |s.life|
    requires CanSuspend(Top(s.threads[t]).mode) && Tables(Switch(s, t, x))
    ensures Located(Switch(s, t, x), y) && ParentStarted(Switch(s, t, x), y)
  {
    assert Located(s, y) && ParentStarted(s, y);
    if y == x {
      assert Switch(s, t, x).threads[t].stack[|s.threads[t].stack|].task == x;
    } else {
      StillLocated(s, Switch(s, t, x), t, y);
    }
  }

  /** Growing thread t's stack leaves every other task where it was. */
  lemma StillLocated(s: State, r: State, t: nat, y: nat)
    requires Placed(s) && Tables(r) && |r.threads| == |s.threads| && t < |s.threads| && y < |s.life| && y < |r.life|
    requires r.life[y] == s.life[y]
    requires forall u :: 0 <= u < |s.threads| && u != t ==> r.threads[u] == s.threads[u]
    requires s.threads[t].stack <= r.threads[t].stack && r.threads[t].queue == s.threads[t].queue
    requires Top(s.threads[t]) == Top(r.threads[t]) || CanSuspend(Top(s.threads[t]).mode)
    ensures Located(r, y)
  {
    assert Located(s, y);
    if OnStack(s, t, y) {
      var k :| 0 <= k < |s.threads[t].stack| && s.threads[t].stack[k].task == y;
      assert r.threads[t].stack[k] == s.threads[t].stack[k];
    }
  }

  /**
  Thread t's top task moves on: only its frame's mode and base, its life, and the life of a child it is
  creating may change.  New tasks may appear.
  */
  predicate TopMoves(s: State, r: State, t: nat)
    requires Placed(s) && Tables(r) && t < |s.threads|
  {
    var (f, f') := (Top(s.threads[t]), if t < |r.threads| then Top(r.threads[t]) else Top(s.threads[t]));
    && |r.threads| == |s.threads| && |s.life| <= |r.life|
    && (forall u :: 0 <= u < |s.threads| && u != t ==> r.threads[u] == s.threads[u])
    && r.threads[t].queue == s.threads[t].queue && r.threads[t].suspended == s.threads[t].suspended
    && r.threads[t].stack == s.threads[t].stack[|s.threads[t].stack| - 1 := f'] && f'.task == f.task
    && (forall y :: 0 <= y < |s.life| ==> r.parent[y] == s.parent[y])
    && (forall y :: 0 <= y < |s.life| ==>
          (r.life[y] == s.life[y] || y == f.task
              || (f.mode.Spawning? && f.mode.child == y && (r.life[y].Done? || r.life[y].Spawned?))))
    && (f.mode.Spawning? && f.mode.child < |s.life| ==>
          r.life[f.mode.child].Done? || (f'.mode.Spawning? && f'.mode.child == f.mode.child))
    && FrameOk(r, t, |r.threads[t].stack| - 1)
  }

  lemma TopMovesThread(s: State, r: State, t: nat)
    requires Placed(s) && Tables(r) && t < |s.threads| && TopMoves(s, r, t)
    ensures ThreadOk(r, t)
  {
    assert ThreadOk(s, t) && FrameOk(s, t, |s.threads[t].stack| - 1);
    forall k | 0 <= k < |r.threads[t].stack| ensures FrameOk(r, t, k) {
      assert FrameOk(s, t, k);
    }
  }

  lemma TopMovesLocated(s: State, r: State, t: nat, y: nat)
    requires Placed(s) && Tables(r) && t < |s.threads| && TopMoves(s, r, t) && y < |s.life|
    ensures Located(r, y) && ParentStarted(r, y)
  {
    assert Located(s, y) && ParentStarted(s, y) && ThreadOk(s, t);
    assert FrameOk(s, t, |s.threads[t].stack| - 1);
    if OnStack(s, t, y) {
      var k :| 0 <= k < |s.threads[t].stack| && s.threads[t].stack[k].task == y;
      assert r.threads[t].stack[k].task == y;
    }
  }

  lemma TopMovesPlaced(s: State, r: State, t: nat)
    requires Placed(s) && Tables(r) && t < |s.threads| && TopMoves(s, r, t)
    requires forall y :: |s.life| <= y < |r.life| ==> Located(r, y) && ParentStarted(r, y)
    ensures Placed(r)
  {
    TopMovesThread(s, r, t);
    assert ThreadOk(s, t) && FrameOk(s, t, |s.threads[t].stack| - 1);
    forall u | 0 <= u < |r.threads| ensures ThreadOk(r, u) {
      if u != t { OthersStay(s, r, t, u); }
    }
    forall y | 0 <= y < |s.life| ensures Located(r, y) && ParentStarted(r, y) {
      TopMovesLocated(s, r, t, y);
    }
  }

  lemma ReturnTop(s: State, t: nat)
    requires Placed(s) && t < |s.threads| && |s.threads[t].stack| >= 2 && !Top(s.threads[t]).mode.Spawning?
    ensures Tables(Return(s, t)) && ThreadOk(Return(s, t), t)
  {
    var r, th := Return(s, t), s.threads[t];
    assert ThreadOk(s, t) && FrameOk(s, t, |th.stack| - 2) && FrameOk(s, t, |th.stack| - 1);
    ReturnTables(s, t);
    forall k | 0 <= k < |th.stack| - 1 ensures FrameOk(r, t, k) {
      ReturnFrame(s, t, k);
    }
  }

  lemma ReturnTables(s: State, t: nat)
    requires Placed(s) && t < |s.threads| && |s.threads[t].stack| >= 2
    ensures Tables(Return(s, t))
  {
    var r := Return(s, t);
    forall k | 0 <= k < |r.threads[t].stack| ensures r.threads[t].stack[k] == s.threads[t].stack[k] {
    }
  }

  lemma ReturnFrame(s: State, t: nat, k: nat)
    requires Placed(s) && t < |s.threads| && k < |s.threads[t].stack| - 1 && Tables(Return(s, t))
    ensures FrameOk(Return(s, t), t, k)
  {
    var th := s.threads[t];
    assert ThreadOk(s, t) && FrameOk(s, t, k) && FrameOk(s, t, |th.stack| - 1);
    assert Return(s, t).threads[t].stack[k] == th.stack[k] && th.stack[k].task != Top(th).task;
  }

  lemma ReturnPlaced(s: State, t: nat)
    requires Placed(s) && t < |s.threads| && |s.threads[t].stack| >= 2 && !Top(s.threads[t]).mode.Spawning?
    ensures Placed(Return(s, t))
  {
    var r, th := Return(s, t), s.threads[t];
    ReturnTop(s, t);
    assert ThreadOk(s, t) && FrameOk(s, t, |th.stack| - 1);
    forall u | 0 <= u < |r.threads| ensures ThreadOk(r, u) {
      if u != t { OthersStay(s, r, t, u); }
    }
    forall y | 0 <= y < |r.life| ensures Located(r, y) && ParentStarted(r, y) {
      ReturnLocated(s, t, y);
    }
  }

  lemma ReturnLocated(s: State, t: nat, y: nat)
    requires Placed(s) && t < |s.threads| && |s.threads[t].stack| >= 2 && !Top(s.threads[t]).mode.Spawning?
    requires y < |s.life| && Tables(Return(s, t))
    ensures Located(Return(s, t), y) && ParentStarted(Return(s, t), y)
  {
    var r, th := Return(s, t), s.threads[t];
    assert ThreadOk(s, t) && FrameOk(s, t, |th.stack| - 1);
    assert Located(s, y) && ParentStarted(s, y);
    if y != Top(th).task && OnStack(s, t, y) {
      var k :| 0 <= k < |th.stack| && th.stack[k].task == y;
      assert r.threads[t].stack[k].task == y;
    }
  }

  // ---------- every step of the scheduler ----------

  /** A task that has not started has no children. */
  lemma NoChildrenYet(s: State, x: nat)
    requires Placed(s) && x < |s.life| && (s.life[x].Spawned? || s.life[x].Queued?)
    ensures forall y :: 0 <= y < |s.life| ==> s.parent[y] != x
  {
    forall y | 0 <= y < |s.life| ensures s.parent[y] != x {
      assert ParentStarted(s, y);
    }
  }

  lemma RetopPlaced(s: State, t: nat, m: Mode)
    requires Placed(s) && t < |s.threads| && !m.Spawning? && !Top(s.threads[t]).mode.Spawning?
    requires m.Bar? ==> |s.threads[t].stack| == 1
    requires IsExit(m) ==> |s.threads[t].stack| >= 2
    ensures Placed(Retop(s, t, m))
  {
    var r := Retop(s, t, m);
    assert ThreadOk(s, t) && FrameOk(s, t, |s.threads[t].stack| - 1);
    assert TopMoves(s, r, t);
    TopMovesPlaced(s, r, t);
  }

  lemma RestagePlaced(s: State, t: nat, x: nat, stage: nat)
    requires Placed(s) && t < |s.threads| && Top(s.threads[t]).mode.Spawning? && Top(s.threads[t]).mode.child == x
    requires x < |s.life| && stage <= 3
    ensures Placed(Restage(s, t, x, stage))
  {
    RestageMoves(s, t, x, stage);
    TopMovesPlaced(s, Restage(s, t, x, stage), t);
  }

  lemma RestageMoves(s: State, t: nat, x: nat, stage: nat)
    requires Placed(s) && t < |s.threads| && Top(s.threads[t]).mode.Spawning? && Top(s.threads[t]).mode.child == x
    requires x < |s.life| && stage <= 3
    ensures TopMoves(s, Restage(s, t, x, stage), t)
  {
    assert ThreadOk(s, t) && FrameOk(s, t, |s.threads[t].stack| - 1);
  }

  lemma ReleasePlaced(s: State, t: nat, x: nat)
    requires Placed(s) && t < |s.threads| && x < |s.life| && Top(s.threads[t]).mode.Spawning?
    requires Top(s.threads[t]).mode.child == x
    ensures Placed(Release(s, t, x))
  {
    var r := Release(s, t, x);
    assert ThreadOk(s, t) && FrameOk(s, t, |s.threads[t].stack| - 1);
    assert TopMoves(s, r, t);
    TopMovesPlaced(s, r, t);
  }

  /** The state just before the task found by a Take is switched to. */
  function Fetched(s: State, t: nat, victim: nat, resume: Mode): (r: State)
    requires Tables(s) && t < |s.threads|
    ensures Tables(r) && |r.threads| == |s.threads| && |r.life| == |s.life|
  {
    var r := Retop(s, t, resume);
    var th := s.threads[t];
    if th.queue != [] then TakeTail(r, t)
    else if
      && th.suspended == 0 && Top(th).mode.Bar?
      && victim < |s.threads| && victim != t && s.threads[victim].queue != []
    then
      TakeHead(r, victim)
    else r
  }

  /** The task a Take finds, or -1. */
  function Found(s: State, t: nat, victim: nat): int
    requires Tables(s) && t < |s.threads|
  {
    var th := s.threads[t];
    if th.queue != [] then th.queue[|th.queue| - 1]
    else if
      && th.suspended == 0 && Top(th).mode.Bar?
      && victim < |s.threads| && victim != t && s.threads[victim].queue != []
    then
      s.threads[victim].queue[0]
    else -1
  }

  predicate Taking(m: Mode, resume: Mode) {
    || (m.WaitTake? && resume == WaitCheck)
    || (m.ExitTake? && resume == ExitCheck)
    || (m == Bar(DrainTake) && resume == Bar(DrainCheck))
  }

  lemma SwitchForgetsLife(s: State, t: nat, x: nat)
    requires t < |s.threads| && s.threads[t].stack != [] && x < |s.life|
    ensures Switch(s.(life := s.life[x := Done]), t, x) == Switch(s, t, x)
  {
    assert s.life[x := Done][x := Active(t)] == s.life[x := Active(t)];
  }

  lemma ResumeKeepsLife(s: State, t: nat, resume: Mode)
    requires Placed(s) && t < |s.threads| && Taking(Top(s.threads[t]).mode, resume)
    ensures Retop(s, t, resume) == SetMode(s, t, resume)
  {
    assert ThreadOk(s, t) && FrameOk(s, t, |s.threads[t].stack| - 1);
    assert Retop(s, t, resume).life == s.life;
  }

  lemma TakeIsMoves(s: State, t: nat, victim: nat, resume: Mode)
    requires Placed(s) && t < |s.threads| && Taking(Top(s.threads[t]).mode, resume)
    ensures Found(s, t, victim) >= 0 ==> Found(s, t, victim) < |s.life|
    ensures Take(s, t, victim, resume) ==
      if Found(s, t, victim) < 0 then SetMode(s, t, resume)
      else Switch(Fetched(s, t, victim, resume), t, Found(s, t, victim))
  {
    ResumeKeepsLife(s, t, resume);
    if s.threads[t].queue != [] {
      OwnTaken(s, t, SetMode(s, t, resume));
    } else if Found(s, t, victim) >= 0 {
      HeadTaken(s, t, victim, SetMode(s, t, resume));
    }
  }

  /** Taking a task out of its queue before switching to it, or in the same step. */
  lemma OwnTaken(s: State, t: nat, m: State)
    requires Tables(s) && Tables(m) && t < |s.threads| && |m.threads| == |s.threads| && m.life == s.life
    requires s.threads[t].queue != [] && m.threads[t].queue == s.threads[t].queue
    ensures var q := s.threads[t].queue;
      && |TakeTail(m, t).life| == |s.life|
      && Switch(TakeTail(m, t), t, q[|q| - 1])
         == Switch(m.(threads := m.threads[t := m.threads[t].(queue := q[..|q| - 1])]), t, q[|q| - 1])
  {
    var q := s.threads[t].queue;
    SwitchForgetsLife(m.(threads := m.threads[t := m.threads[t].(queue := q[..|q| - 1])]), t, q[|q| - 1]);
  }

  lemma HeadTaken(s: State, t: nat, v: nat, m: State)
    requires Tables(s) && Tables(m) && t < |s.threads| && |m.threads| == |s.threads| && m.life == s.life
    requires v < |s.threads| && v != t && s.threads[v].queue != [] && m.threads[v] == s.threads[v]
    ensures var th := s.threads[v];
      Switch(TakeHead(m, v), t, th.queue[0])
      == Switch(m.(threads := m.threads[v := th.(queue := th.queue[1..], stolen := th.stolen + 1)]), t, th.queue[0])
  {
    var th := s.threads[v];
    SwitchForgetsLife(
      m.(threads := m.threads[v := th.(queue := th.queue[1..], stolen := th.stolen + 1)]), t, th.queue[0]);
  }

  lemma ResumePlaced(s: State, t: nat, resume: Mode)
    requires Placed(s) && t < |s.threads| && Taking(Top(s.threads[t]).mode, resume)
    ensures Placed(Retop(s, t, resume)) && Top(Retop(s, t, resume).threads[t]).mode == resume
  {
    assert ThreadOk(s, t) && FrameOk(s, t, |s.threads[t].stack| - 1);
    RetopPlaced(s, t, resume);
  }

  lemma FetchedPlaced(s: State, t: nat, victim: nat, resume: Mode)
    requires Placed(s) && t < |s.threads| && Taking(Top(s.threads[t]).mode, resume)
    ensures Placed(Fetched(s, t, victim, resume))
    ensures Found(s, t, victim) >= 0 ==>
      && |s.threads| <= Found(s, t, victim) < |s.life|
      && Fetched(s, t, victim, resume).life[Found(s, t, victim)] == Done
    ensures Top(Fetched(s, t, victim, resume).threads[t]).mode == resume
  {
    ResumePlaced(s, t, resume);
    var r := Retop(s, t, resume);
    if s.threads[t].queue != [] {
      assert r.threads[t].queue == s.threads[t].queue;
      TakeTailPlaced(r, t);
      TailIsQueued(r, t);
    } else if Found(s, t, victim) >= 0 {
      assert r.threads[victim] == s.threads[victim];
      TakeHeadPlaced(r, victim);
      HeadIsQueued(r, victim);
    }
  }

  lemma TailIsQueued(s: State, t: nat)
    requires Placed(s) && t < |s.threads| && s.threads[t].queue != []
    ensures var q := s.threads[t].queue;
      |s.threads| <= q[|q| - 1] < |s.life| && TakeTail(s, t).life[q[|q| - 1]] == Done
  {
    assert ThreadOk(s, t);
    QueuedAreExplicit(s, t, s.threads[t].queue[|s.threads[t].queue| - 1]);
  }

  lemma HeadIsQueued(s: State, v: nat)
    requires Placed(s) && v < |s.threads| && s.threads[v].queue != []
    ensures |s.threads| <= s.threads[v].queue[0] < |s.life| && TakeHead(s, v).life[s.threads[v].queue[0]] == Done
  {
    assert ThreadOk(s, v);
    QueuedAreExplicit(s, v, s.threads[v].queue[0]);
  }

  /** The implicit task of a thread is always on that thread's stack. */
  lemma ImplicitActive(s: State, t: nat)
    requires Placed(s) && t < |s.threads|
    ensures s.life[t] == Active(t)
  {
    assert ThreadOk(s, t) && FrameOk(s, t, 0);
  }

  lemma QueuedAreExplicit(s: State, t: nat, x: nat)
    requires Placed(s) && x < |s.life| && (s.life[x] == Queued(t) || s.life[x].Spawned?)
    ensures x >= |s.threads|
  {
    if x < |s.threads| {
      ImplicitActive(s, x);
    }
  }

  lemma TakePlaced(s: State, t: nat, victim: nat, resume: Mode)
    requires Placed(s) && t < |s.threads| && Taking(Top(s.threads[t]).mode, resume)
    ensures Placed(Take(s, t, victim, resume))
  {
    TakeIsMoves(s, t, victim, resume);
    ResumeKeepsLife(s, t, resume);
    FetchedPlaced(s, t, victim, resume);
    if Found(s, t, victim) >= 0 {
      SwitchPlaced(Fetched(s, t, victim, resume), t, Found(s, t, victim));
    }
  }

  lemma SpawnPlaced(s: State, t: nat, blocks: bool)
    requires Placed(s) && t < |s.threads| && Top(s.threads[t]).mode.Running?
    ensures Placed(Next(s, Spawn(t, blocks)))
  {
    SpawnMoves(s, t, blocks);
    TopMovesPlaced(s, Next(s, Spawn(t, blocks)), t);
  }

  lemma SpawnMoves(s: State, t: nat, blocks: bool)
    requires Placed(s) && t < |s.threads| && Top(s.threads[t]).mode.Running?
    ensures var r := Next(s, Spawn(t, blocks));
      && Tables(r) && TopMoves(s, r, t)
      && forall y :: |s.life| <= y < |r.life| ==> Located(r, y) && ParentStarted(r, y)
  {
    assert ThreadOk(s, t) && FrameOk(s, t, |s.threads[t].stack| - 1);
    SpawnTables(s, t, blocks);
    SpawnLocated(s, t, blocks);
  }

  lemma SpawnTables(s: State, t: nat, blocks: bool)
    requires Tables(s) && t < |s.threads| && Top(s.threads[t]).mode.Running?
    ensures Tables(Next(s, Spawn(t, blocks))) && |Next(s, Spawn(t, blocks)).life| == |s.life| + 1
  {
  }

  /** The new task is with its creator, who is running. */
  lemma SpawnLocated(s: State, t: nat, blocks: bool)
    requires Placed(s) && t < |s.threads| && Top(s.threads[t]).mode.Running?
    requires Tables(Next(s, Spawn(t, blocks))) && |Next(s, Spawn(t, blocks)).life| == |s.life| + 1
    ensures Located(Next(s, Spawn(t, blocks)), |s.life|) && ParentStarted(Next(s, Spawn(t, blocks)), |s.life|)
  {
    assert ThreadOk(s, t) && FrameOk(s, t, |s.threads[t].stack| - 1);
  }

  // ---------- undeferred tasks ----------

  lemma WithUndeferredPlaced(s: State, t: nat)
    requires Placed(s) && t < |s.threads| && Top(s.threads[t]).mode.Running?
    ensures Placed(WithUndeferred(s, t))
  {
    var r := WithUndeferred(s, t);
    assert ThreadOk(s, t) && FrameOk(s, t, |s.threads[t].stack| - 1);
    assert TopMoves(s, r, t) by {
      assert FrameOk(r, t, |s.threads[t].stack| - 1);
    }
    TopMovesPlaced(s, r, t);
  }

  lemma RunNowPlaced(s: State, t: nat)
    requires Placed(s) && t < |s.threads| && Top(s.threads[t]).mode.Running?
    ensures Placed(WithUndeferred(s, t)) && Placed(Next(s, RunNow(t)))
  {
    WithUndeferredPlaced(s, t);
    SwitchPlaced(WithUndeferred(s, t), t, |s.parent|);
  }

  lemma PutIsMoves(s: State, t: nat)
    requires Placed(s) && t < |s.threads| && Top(s.threads[t]).mode.Spawning? && Top(s.threads[t]).mode.stage == 3
    ensures var x := Top(s.threads[t]).mode.child;
      && |s.threads| <= x < |s.life|
      && SpawnStep(s, t) ==
         if |s.threads[t].queue| < s.capacity then Enqueue(Release(s, t, x), t, x) else Switch(Release(s, t, x), t, x)
  {
    var x := Top(s.threads[t]).mode.child;
    assert ThreadOk(s, t) && FrameOk(s, t, |s.threads[t].stack| - 1);
    QueuedAreExplicit(s, t, x);
    assert s.life[x := Queued(t)] == s.life[x := Done][x := Queued(t)];
    SwitchForgetsLife(SetMode(s, t, Running), t, x);
  }

  lemma PutPlaced(s: State, t: nat)
    requires Placed(s) && t < |s.threads| && Top(s.threads[t]).mode.Spawning? && Top(s.threads[t]).mode.stage == 3
    ensures Placed(SpawnStep(s, t))
  {
    var x := Top(s.threads[t]).mode.child;
    PutIsMoves(s, t);
    ReleasePlaced(s, t, x);
    assert ThreadOk(s, t) && FrameOk(s, t, |s.threads[t].stack| - 1);
    NoChildrenYet(s, x);
    if |s.threads[t].queue| < s.capacity {
      EnqueuePlaced(Release(s, t, x), t, x);
    } else {
      SwitchPlaced(Release(s, t, x), t, x);
    }
  }

  lemma SpawnStepPlaced(s: State, t: nat)
    requires Placed(s) && t < |s.threads| && Top(s.threads[t]).mode.Spawning?
    ensures Placed(SpawnStep(s, t))
  {
    assert ThreadOk(s, t) && FrameOk(s, t, |s.threads[t].stack| - 1);
    if Top(s.threads[t]).mode.stage == 3 {
      PutPlaced(s, t);
    } else {
      StagePlaced(s, t, Top(s.threads[t]).mode);
    }
  }

  lemma StagePlaced(s: State, t: nat, m: Mode)
    requires Placed(s) && t < |s.threads| && m == Top(s.threads[t]).mode && m.Spawning?
    requires m.child < |s.life| && m.stage < 3
    ensures Placed(SpawnStep(s, t))
  {
    RestagePlaced(s, t, m.child, m.stage + 1);
    RestagedSame(s, t);
    SamePlacesPlaced(Restage(s, t, m.child, m.stage + 1), SpawnStep(s, t));
  }

  lemma RestagedSame(s: State, t: nat)
    requires Placed(s) && t < |s.threads| && Top(s.threads[t]).mode.Spawning?
    requires Top(s.threads[t]).mode.child < |s.life| && Top(s.threads[t]).mode.stage < 3
    ensures var m := Top(s.threads[t]).mode; SamePlaces(Restage(s, t, m.child, m.stage + 1), SpawnStep(s, t))
  {
  }

  lemma ExitModePlaced(s: State, t: nat, m: Mode, r: State)
    requires Placed(s) && t < |s.threads| && |s.threads[t].stack| >= 2 && IsExit(Top(s.threads[t]).mode) && IsExit(m)
    requires SamePlaces(Retop(s, t, m), r)
    ensures Placed(r)
  {
    RetopPlaced(s, t, m);
    SamePlacesPlaced(Retop(s, t, m), r);
  }

  lemma ExitCheckPlaced(s: State, t: nat, victim: nat)
    requires Placed(s) && t < |s.threads| && |s.threads[t].stack| >= 2 && Top(s.threads[t]).mode.ExitCheck?
    ensures Placed(ExitStep(s, t, victim))
  {
    assert ThreadOk(s, t) && FrameOk(s, t, |s.threads[t].stack| - 1);
    var m := if s.numBlocking[Top(s.threads[t]).task] != 0 then ExitTake else ExitBlocking;
    ExitModePlaced(s, t, m, ExitStep(s, t, victim));
  }

  lemma ExitReturnPlaced(s: State, t: nat, victim: nat)
    requires Placed(s) && t < |s.threads| && |s.threads[t].stack| >= 2 && Top(s.threads[t]).mode.ExitBlocking?
    ensures Placed(ExitStep(s, t, victim))
  {
    assert ThreadOk(s, t) && FrameOk(s, t, |s.threads[t].stack| - 1);
    ReturnPlaced(s, t);
    ExitReturnSame(s, t, victim);
    SamePlacesPlaced(Return(s, t), ExitStep(s, t, victim));
  }

  lemma ExitReturnSame(s: State, t: nat, victim: nat)
    requires Placed(s) && t < |s.threads| && |s.threads[t].stack| >= 2 && Top(s.threads[t]).mode.ExitBlocking?
    ensures SamePlaces(Return(s, t), ExitStep(s, t, victim))
  {
    assert ThreadOk(s, t) && FrameOk(s, t, |s.threads[t].stack| - 1);
  }

  lemma ExitStepPlaced(s: State, t: nat, victim: nat)
    requires Placed(s) && t < |s.threads| && IsExit(Top(s.threads[t]).mode)
    ensures Placed(ExitStep(s, t, victim))
  {
    var th := s.threads[t];
    assert ThreadOk(s, t) && FrameOk(s, t, |th.stack| - 1);
    match Top(th).mode {
      case ExitPending => ExitModePlaced(s, t, ExitParent, ExitStep(s, t, victim));
      case ExitParent => ExitModePlaced(s, t, ExitCheck, ExitStep(s, t, victim));
      case ExitCheck => ExitCheckPlaced(s, t, victim);
      case ExitTake => TakePlaced(s, t, victim, ExitCheck);
      case ExitBlocking => ExitReturnPlaced(s, t, victim);
    }
  }

  lemma LeavePlaced(s: State, t: nat, r: State)
    requires Placed(s) && t < |s.threads| && Top(s.threads[t]).mode.Bar?
    requires SamePlaces(LeaveBarrier(s, t), r)
    ensures Placed(r)
  {
    assert ThreadOk(s, t) && FrameOk(s, t, |s.threads[t].stack| - 1);
    assert TopMoves(s, r, t);
    TopMovesPlaced(s, r, t);
  }

  lemma BarModePlaced(s: State, t: nat, m: Mode, r: State)
    requires Placed(s) && t < |s.threads| && Top(s.threads[t]).mode.Bar? && m.Bar?
    requires SamePlaces(SetMode(s, t, m), r)
    ensures Placed(r)
  {
    assert ThreadOk(s, t) && FrameOk(s, t, |s.threads[t].stack| - 1);
    RetopPlaced(s, t, m);
    assert Retop(s, t, m).life == s.life;
    SamePlacesPlaced(Retop(s, t, m), r);
  }

  lemma BarStepPlaced(s: State, t: nat, victim: nat)
    requires Placed(s) && t < |s.threads| && Top(s.threads[t]).mode.Bar?
    ensures Placed(BarStep(s, t, victim))
  {
    var r := BarStep(s, t, victim);
    match Top(s.threads[t]).mode.pc {
      case DrainTake => TakePlaced(s, t, victim, Bar(DrainCheck));
      case Toggle => LeavePlaced(s, t, r);
      case AwaitFlag => if s.flag != s.threads[t].barFlag { LeavePlaced(s, t, r); }
      case _ => BarModePlaced(s, t, Top(r.threads[t]).mode, r);
    }
  }

  lemma EnterPlaced(s: State, t: nat)
    requires Placed(s) && t < |s.threads|
    ensures Placed(Next(s, EnterBarrier(t)))
  {
    if Top(s.threads[t]).mode.Running? && |s.threads[t].stack| == 1 {
      EnterMoves(s, t);
      TopMovesPlaced(s, Next(s, EnterBarrier(t)), t);
    }
  }

  lemma EnterMoves(s: State, t: nat)
    requires Placed(s) && t < |s.threads| && Top(s.threads[t]).mode.Running? && |s.threads[t].stack| == 1
    ensures var r := Next(s, EnterBarrier(t)); Tables(r) && TopMoves(s, r, t) && |r.life| == |s.life|
  {
    assert ThreadOk(s, t) && FrameOk(s, t, 0);
  }

  /** The mode-only steps: taskwait, the start of exit, and the tests of taskwait. */
  lemma ModePlaced(s: State, t: nat, m: Mode)
    requires Placed(s) && t < |s.threads| && (Top(s.threads[t]).mode.Running? || Top(s.threads[t]).mode.WaitCheck?)
    requires m.Running? || m.WaitCheck? || m.WaitTake? || (m.ExitPending? && |s.threads[t].stack| >= 2)
    ensures Placed(SetMode(s, t, m))
  {
    assert ThreadOk(s, t) && FrameOk(s, t, |s.threads[t].stack| - 1);
    RetopPlaced(s, t, m);
    assert Retop(s, t, m).life == s.life;
  }

  lemma StepPlaced(s: State, t: nat, victim: nat)
    requires Placed(s) && t < |s.threads|
    ensures Placed(Next(s, Step(t, victim)))
  {
    var top := Top(s.threads[t]);
    if top.mode.Spawning? {
      SpawnStepPlaced(s, t);
    } else if top.mode.WaitCheck? {
      ModePlaced(s, t, if s.numChildren[top.task] != 0 then WaitTake else Running);
    } else if top.mode.WaitTake? {
      TakePlaced(s, t, victim, WaitCheck);
    } else if top.mode.Bar? {
      BarStepPlaced(s, t, victim);
    } else if IsExit(top.mode) {
      ExitStepPlaced(s, t, victim);
    }
  }

  lemma NextPlaced(s: State, a: Action)
    requires Placed(s)
    ensures Placed(Next(s, a))
  {
    if a.t < |s.threads| {
      match a {
        case Spawn(t, blocks) => if Top(s.threads[t]).mode.Running? { SpawnPlaced(s, t, blocks); }
        case RunNow(t) => if Top(s.threads[t]).mode.Running? { RunNowPlaced(s, t); }
        case TaskWait(t) => if Top(s.threads[t]).mode.Running? { ModePlaced(s, t, WaitCheck); }
        case Exit(t) =>
          if Top(s.threads[t]).mode.Running? && |s.threads[t].stack| >= 2 { ModePlaced(s, t, ExitPending); }
        case EnterBarrier(t) => EnterPlaced(s, t);
        case Step(t, victim) => StepPlaced(s, t, victim);
      }
    }
  }
}
