/**
The tied-task scheduling constraint.  The queue of a thread splits, for every tied task on its stack,
into older entries and descendants of that task, and as soon as a child of the task has been stolen
no older entry is left.
*/
module TiedTasks {
  import opened TaskScheduler
  import opened TaskPlacement

  /** Is a a proper ancestor of x? */
  predicate Descends(parent: seq<int>, x: int, a: int)
    decreases x
  {
    0 <= x < |parent| && parent[x] < x && (parent[x] == a || Descends(parent, parent[x], a))
  }

  lemma {:induction false} DescendsStable(parent: seq<int>, parent': seq<int>, x: int, a: int)
    requires parent <= parent' && x < |parent|
    ensures Descends(parent', x, a) == Descends(parent, x, a)
    decreases x
  {
    if x < 0 || parent[x] >= x {
    } else {
      DescendsStable(parent, parent', parent[x], a);
    }
  }

  /** Everything thread t has to say about child x of its k-th task. */
  predicate Accounted(s: State, t: nat, k: nat, x: nat)
    requires t < |s.threads| && k < |s.threads[t].stack|
  {
    var (th, f) := (s.threads[t], s.threads[t].stack[k]);
    || f.base <= th.stolen
    || (f.mode.Spawning? && f.mode.child == x)
    || (exists j :: 0 <= j < |th.queue| && th.queue[j] == x && th.stolen + j >= f.base)
    || (exists l :: k < l < |th.stack| && th.stack[l].task == x)
  }

  predicate FrameTree(s: State, t: nat, k: nat)
    requires Tables(s) && t < |s.threads| && k < |s.threads[t].stack|
  {
    var (th, f) := (s.threads[t], s.threads[t].stack[k]);
    !f.mode.Bar? ==>
      && f.base <= th.stolen + |th.queue|
      && (forall l :: k < l < |th.stack| ==> f.base <= th.stack[l].base && Descends(s.parent, th.stack[l].task, f.task))
      && (forall j :: 0 <= j < |th.queue| && th.stolen + j >= f.base ==> Descends(s.parent, th.queue[j], f.task))
      && (forall x :: 0 <= x < |s.life| && !s.life[x].Done? && s.parent[x] == f.task ==> Accounted(s, t, k, x))
  }

  /** A waiting task that has seen an unfinished child will only find its own descendants. */
  predicate TakeReady(s: State, t: nat)
    requires Tables(s) && t < |s.threads|
  {
    var (th, f) := (s.threads[t], Top(s.threads[t]));
    f.mode.WaitTake? || f.mode.ExitTake? ==> f.base <= th.stolen || f.base < th.stolen + |th.queue|
  }

  predicate FrameTrees(s: State)
    requires Tables(s)
  {
    forall t, k :: 0 <= t < |s.threads| && 0 <= k < |s.threads[t].stack| ==> FrameTree(s, t, k)
  }

  predicate Ready(s: State)
    requires Tables(s)
  {
    forall t :: 0 <= t < |s.threads| ==> TakeReady(s, t)
  }

  lemma InitTree(s: State)
    requires Init(s)
    ensures Placed(s) && FrameTrees(s) && Ready(s)
  {
    InitPlaced(s);
  }

  // ---------- the moves keep the tree ----------

  /** Threads, parents and finished tasks as before, except for modes. */
  predicate SameShape(s: State, r: State, u: nat)
    requires Tables(s) && Tables(r) && |r.threads| == |s.threads| && u < |s.threads|
  {
    var (th, th') := (s.threads[u], r.threads[u]);
    && th'.queue == th.queue && th'.stolen == th.stolen && |th'.stack| == |th.stack|
    && s.parent <= r.parent
    && (forall k :: 0 <= k < |th.stack| ==>
          && th'.stack[k].task == th.stack[k].task
          && (th.stack[k].mode.Bar? ==> th'.stack[k].mode.Bar?)
          && th'.stack[k].base == th.stack[k].base
          && (th.stack[k].mode.Spawning? ==> (
                || (th'.stack[k].mode.Spawning? && th'.stack[k].mode.child == th.stack[k].mode.child)
                || (th.stack[k].mode.child < |r.life| && r.life[th.stack[k].mode.child].Done?))))
    && (forall x :: 0 <= x < |s.life| && s.life[x].Done? ==> r.life[x].Done?)
  }

  lemma SameShapeTree(s: State, r: State, u: nat, k: nat)
    requires Tables(s) && Tables(r) && |r.threads| == |s.threads| && u < |s.threads| && k < |s.threads[u].stack|
    requires SameShape(s, r, u) && FrameTree(s, u, k)
    requires forall x :: |s.life| <= x < |r.life| && !r.life[x].Done? && r.parent[x] == s.threads[u].stack[k].task ==>
      Accounted(r, u, k, x)
    ensures FrameTree(r, u, k)
  {
    var th, f := s.threads[u], s.threads[u].stack[k];
    if !r.threads[u].stack[k].mode.Bar? {
      forall l | k < l < |th.stack| ensures Descends(r.parent, th.stack[l].task, f.task) {
        DescendsStable(s.parent, r.parent, th.stack[l].task, f.task);
      }
      forall j | 0 <= j < |th.queue| && th.stolen + j >= f.base ensures Descends(r.parent, th.queue[j], f.task) {
        DescendsStable(s.parent, r.parent, th.queue[j], f.task);
      }
      forall x | 0 <= x < |s.life| && !r.life[x].Done? && r.parent[x] == f.task ensures Accounted(r, u, k, x) {
        assert Accounted(s, u, k, x);
        if exists l :: k < l < |th.stack| && th.stack[l].task == x {
          var l :| k < l < |th.stack| && th.stack[l].task == x;
          assert r.threads[u].stack[l].task == x;
        }
      }
    }
  }

  /** Only the tail entry is gone, and it was no older than any task still suspended. */
  lemma TakeTailTree(s: State, t: nat)
    requires Placed(s) && FrameTrees(s) && t < |s.threads| && s.threads[t].queue != []
    requires forall k :: 0 <= k < |s.threads[t].stack| && !s.threads[t].stack[k].mode.Bar? ==>
      s.threads[t].stack[k].base < s.threads[t].stolen + |s.threads[t].queue|
    requires Tables(TakeTail(s, t))
    ensures FrameTrees(TakeTail(s, t))
  {
    var r, q := TakeTail(s, t), s.threads[t].queue;
    forall u, k | 0 <= u < |s.threads| && 0 <= k < |s.threads[u].stack| ensures FrameTree(r, u, k) {
      assert FrameTree(s, u, k);
      if u != t {
        SameShapeTree(s, r, u, k);
      } else if !s.threads[t].stack[k].mode.Bar? {
        forall x | 0 <= x < |s.life| && !r.life[x].Done? && r.parent[x] == s.threads[t].stack[k].task
          ensures Accounted(r, t, k, x)
        {
          assert Accounted(s, t, k, x);
        }
      }
    }
  }

  lemma TakeHeadAccounted(s: State, v: nat, k: nat, x: nat)
    requires Placed(s) && v < |s.threads| && s.threads[v].queue != []
    requires k < |s.threads[v].stack| && x != s.threads[v].queue[0] && Accounted(s, v, k, x)
    ensures Accounted(TakeHead(s, v), v, k, x)
  {
    var r, th := TakeHead(s, v), s.threads[v];
    if j :| 0 <= j < |th.queue| && th.queue[j] == x && th.stolen + j >= th.stack[k].base {
      assert r.threads[v].queue[j - 1] == x;
    }
  }

  /** Only the oldest entry is gone. */
  lemma TakeHeadTree(s: State, v: nat)
    requires Placed(s) && FrameTrees(s) && v < |s.threads| && s.threads[v].queue != [] && Tables(TakeHead(s, v))
    ensures FrameTrees(TakeHead(s, v))
  {
    var r, q := TakeHead(s, v), s.threads[v].queue;
    forall u, k | 0 <= u < |s.threads| && 0 <= k < |s.threads[u].stack| ensures FrameTree(r, u, k) {
      assert FrameTree(s, u, k);
      if u != v {
        SameShapeTree(s, r, u, k);
      } else if !s.threads[v].stack[k].mode.Bar? {
        var f := s.threads[v].stack[k];
        forall j | 0 <= j < |r.threads[v].queue| && r.threads[v].stolen + j >= f.base
          ensures Descends(r.parent, r.threads[v].queue[j], f.task)
        {
          assert r.threads[v].queue[j] == q[j + 1];
        }
        forall x | 0 <= x < |s.life| && !r.life[x].Done? && r.parent[x] == f.task ensures Accounted(r, v, k, x) {
          TakeHeadAccounted(s, v, k, x);
        }
      }
    }
  }

  /** Once x has been taken, every other thread still running x's parent has lost everything older. */
  predicate ParentExposed(s: State, t: nat, x: nat)
    requires Tables(s) && x < |s.parent|
  {
    forall u, k :: 0 <= u < |s.threads| && u != t && 0 <= k < |s.threads[u].stack| ==>
      s.threads[u].stack[k].task == s.parent[x] ==>
        s.threads[u].stack[k].mode.Bar? || s.threads[u].stack[k].base <= s.threads[u].stolen
  }

  /** x may run on thread t: it descends from every tied task there that is not in a barrier. */
  predicate Allowed(s: State, t: nat, x: int)
    requires t < |s.threads|
  {
    forall k :: 0 <= k < |s.threads[t].stack| && !s.threads[t].stack[k].mode.Bar? ==>
      Descends(s.parent, x, s.threads[t].stack[k].task)
  }

  lemma SwitchTree(s: State, t: nat, x: nat)
    requires Placed(s) && t < |s.threads| && |s.threads| <= x < |s.life| && s.life[x] == Done && Tables(Switch(s, t, x))
    requires FrameTrees(s)
    requires Allowed(s, t, x) && ParentExposed(s, t, x)
    requires forall y :: 0 <= y < |s.life| ==> s.parent[y] != x
    ensures FrameTrees(Switch(s, t, x))
  {
    var r, th := Switch(s, t, x), s.threads[t];
    forall u, k | 0 <= u < |s.threads| && 0 <= k < |r.threads[u].stack| ensures FrameTree(r, u, k) {
      if u != t {
        assert FrameTree(s, u, k);
        forall y | 0 <= y < |s.life| && !r.life[y].Done? && r.parent[y] == s.threads[u].stack[k].task
          && !s.threads[u].stack[k].mode.Bar?
          ensures Accounted(r, u, k, y)
        {
          assert y != x ==> Accounted(s, u, k, y);
        }
      } else if k < |th.stack| {
        SwitchTreeBelow(s, t, x, k);
      }
    }
  }

  lemma SwitchTreeBelow(s: State, t: nat, x: nat, k: nat)
    requires Placed(s) && t < |s.threads| && |s.threads| <= x < |s.life| && s.life[x] == Done && Tables(Switch(s, t, x))
    requires k < |s.threads[t].stack| && FrameTree(s, t, k) && Allowed(s, t, x)
    ensures FrameTree(Switch(s, t, x), t, k)
  {
    var r, th := Switch(s, t, x), s.threads[t];
    if !th.stack[k].mode.Bar? {
      forall y | 0 <= y < |s.life| && !r.life[y].Done? && r.parent[y] == th.stack[k].task
        ensures Accounted(r, t, k, y)
      {
        if y == x {
          assert r.threads[t].stack[|th.stack|].task == x;
        } else {
          assert Accounted(s, t, k, y);
          if l :| k < l < |th.stack| && th.stack[l].task == y {
            assert r.threads[t].stack[l].task == y;
          }
        }
      }
    }
  }

  lemma EnqueueTree(s: State, t: nat, x: nat)
    requires Placed(s) && t < |s.threads| && |s.threads| <= x < |s.life| && s.life[x] == Done
    requires Tables(Enqueue(s, t, x))
    requires FrameTrees(s)
    requires Allowed(s, t, x) && ParentExposed(s, t, x)
    ensures FrameTrees(Enqueue(s, t, x))
  {
    var r, th := Enqueue(s, t, x), s.threads[t];
    forall u, k | 0 <= u < |s.threads| && 0 <= k < |r.threads[u].stack| ensures FrameTree(r, u, k) {
      assert FrameTree(s, u, k);
      if !s.threads[u].stack[k].mode.Bar? {
        forall y | 0 <= y < |s.life| && !r.life[y].Done? && r.parent[y] == s.threads[u].stack[k].task
          ensures Accounted(r, u, k, y)
        {
          if y == x && u == t {
            assert r.threads[t].queue[|th.queue|] == x;
          } else if y != x {
            assert Accounted(s, u, k, y);
            if u == t {
              EnqueueAccounted(s, t, x, k, y);
            }
          }
        }
      }
    }
  }

  lemma EnqueueAccounted(s: State, t: nat, x: nat, k: nat, y: nat)
    requires Tables(s) && t < |s.threads| && x < |s.life| && k < |s.threads[t].stack| && Accounted(s, t, k, y)
    ensures Accounted(Enqueue(s, t, x), t, k, y)
  {
    var r, th := Enqueue(s, t, x), s.threads[t];
    if j :| 0 <= j < |th.queue| && th.queue[j] == y && th.stolen + j >= th.stack[k].base {
      assert r.threads[t].queue[j] == y;
    }
  }

  lemma ReturnTree(s: State, t: nat)
    requires Placed(s) && FrameTrees(s) && t < |s.threads| && |s.threads[t].stack| >= 2 && Tables(Return(s, t))
    ensures FrameTrees(Return(s, t))
  {
    var r, th := Return(s, t), s.threads[t];
    forall u, k | 0 <= u < |s.threads| && 0 <= k < |r.threads[u].stack| ensures FrameTree(r, u, k) {
      assert FrameTree(s, u, k);
      if u != t {
        SameShapeTree(s, r, u, k);
      } else if !th.stack[k].mode.Bar? {
        forall x | 0 <= x < |s.life| && !r.life[x].Done? && r.parent[x] == th.stack[k].task
          ensures Accounted(r, t, k, x)
        {
          assert Accounted(s, t, k, x);
          if l :| k < l < |th.stack| && th.stack[l].task == x {
            assert r.threads[t].stack[l].task == x;
          }
        }
      }
    }
  }
}
