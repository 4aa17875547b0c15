/**
The tree barrier: threads arrive up a 4-ary tree and are woken down a binary tree.  A node's four
childnotready bytes are cleared by its children and set again by itself; wakeup_sense alternates.
Every shared access is one step.  The team size and the number of episodes are unbounded.
*/
module TreeBarrier {
  import opened Arith

  /** Program points of one thread. */
  datatype Pc = Outside | WaitChildren | Rearm | Signal | AwaitWakeup | Notify0 | Notify1

  /** `episode` counts the barriers left; the program never reads it. */
  datatype Thread = Thread(pc: Pc, sense: bool, episode: nat)

  datatype Node = Node(notReady: seq<bool>, wakeupSense: bool)

  datatype State = State(nodes: seq<Node>, threads: seq<Thread>)

  // ---------- the two trees ----------

  function ArrivalParent(v: nat): nat
    requires v > 0
  {
    (v - 1) / 4
  }

  /** Which of its parent's four bytes v clears. */
  function ArrivalPart(v: nat): nat
    requires v > 0
  {
    v - 4 * ArrivalParent(v) - 1
  }

  function WakeupParent(v: nat): nat
    requires v > 0
  {
    (v - 1) / 2
  }

  /** The value of havechild for thread v. */
  function HaveChild(n: nat, v: nat): seq<bool> {
    [4 * v + 1 < n, 4 * v + 2 < n, 4 * v + 3 < n, 4 * v + 4 < n]
  }

  /** Numbered level by level, the 4-ary tree reaches every thread but the root from exactly one place. */
  lemma ArrivalReachesOnce(v: nat, w: nat, i: nat)
    requires v > 0
    ensures ArrivalParent(v) < v && ArrivalPart(v) < 4 && 4 * ArrivalParent(v) + 1 + ArrivalPart(v) == v
    ensures i < 4 && 4 * w + 1 + i == v ==> w == ArrivalParent(v) && i == ArrivalPart(v)
  {
    DivModUnique(v - 1, 4, ArrivalParent(v), ArrivalPart(v));
    if i < 4 && 4 * w + 1 + i == v {
      DivModUnique(v - 1, 4, w, i);
    }
  }

  /** So does the binary tree. */
  lemma WakeupReachesOnce(v: nat, w: nat, i: nat)
    requires v > 0
    ensures WakeupParent(v) < v && 2 * WakeupParent(v) + 1 <= v <= 2 * WakeupParent(v) + 2
    ensures i < 2 && 2 * w + 1 + i == v ==> w == WakeupParent(v) && i == (v - 1) % 2
  {
    if i < 2 && 2 * w + 1 + i == v {
      DivModUnique(v - 1, 2, w, i);
    }
  }

  /** Is a on the way from v up to the root of the arrival tree, or of the wakeup tree? */
  predicate Above(v: nat, a: nat, arrival: bool)
    decreases v
  {
    v == a || (v > 0 && Above(if arrival then ArrivalParent(v) else WakeupParent(v), a, arrival))
  }

  /** The root is above every thread: arrivals reach it and wakeups come from it. */
  lemma {:induction false} RootAboveAll(v: nat, arrival: bool)
    ensures Above(v, 0, arrival)
    decreases v
  {
    if v == 0 {
    } else {
      RootAboveAll(if arrival then ArrivalParent(v) else WakeupParent(v), arrival);
    }
  }

  /** The shared node of one thread, as its owner lays it out; -1 stands for its dummy byte. */
  class TreeNode {
    var parent: int
    var part: int
    var childNotify: seq<int>
    var haveChild: seq<bool>
    var notReady: seq<bool>
    var wakeupSense: bool

    constructor (n: nat, vpid: nat)
      requires vpid < n
      ensures if vpid == 0 then parent == part == -1 else parent == ArrivalParent(vpid) && part == ArrivalPart(vpid)
      ensures |childNotify| == 2
      ensures forall i :: 0 <= i < 2 ==> childNotify[i] == if 2 * vpid + 1 + i < n then 2 * vpid + 1 + i else -1
      ensures notReady == haveChild == HaveChild(n, vpid) && !wakeupSense
    {
      if vpid == 0 {
        parent, part := -1, -1;
      } else {
        var parentId := (vpid - 1) / 4;
        parent, part := parentId, vpid - parentId * 4 - 1;
      }
      childNotify, haveChild, notReady, wakeupSense := [-1, -1], [false, false, false, false], [], false;
      new;
      var childId := 2 * vpid + 1;
      for i := 0 to 2
        invariant childId == 2 * vpid + 1 + i && |childNotify| == 2
        invariant forall j :: 0 <= j < i ==> childNotify[j] == if 2 * vpid + 1 + j < n then 2 * vpid + 1 + j else -1
        invariant haveChild == [false, false, false, false] && !wakeupSense
        invariant if vpid == 0 then parent == part == -1 else parent == ArrivalParent(vpid) && part == ArrivalPart(vpid)
      {
        childNotify := childNotify[i := if n > childId then childId else -1];
        childId := childId + 1;
      }
      childId := 4 * vpid + 1;
      for i := 0 to 4
        invariant childId == 4 * vpid + 1 + i && |haveChild| == 4
        invariant forall j :: 0 <= j < i ==> haveChild[j] == (4 * vpid + 1 + j < n)
        invariant i > 0 ==> notReady == haveChild && !wakeupSense
        invariant |childNotify| == 2
        invariant forall j :: 0 <= j < 2 ==> childNotify[j] == if 2 * vpid + 1 + j < n then 2 * vpid + 1 + j else -1
        invariant if vpid == 0 then parent == part == -1 else parent == ArrivalParent(vpid) && part == ArrivalPart(vpid)
      {
        haveChild := haveChild[i := n > childId];
        notReady := haveChild;
        wakeupSense := false;
        childId := childId + 1;
      }
    }
  }

  // ---------- the program ----------

  predicate Shape(s: State) {
    && |s.threads| >= 2 && |s.nodes| == |s.threads|
    && forall v :: 0 <= v < |s.nodes| ==> |s.nodes[v].notReady| == 4
  }

  predicate Init(s: State) {
    && Shape(s)
    && forall v :: 0 <= v < |s.threads| ==>
         s.threads[v] == Thread(Outside, true, 0) && s.nodes[v] == Node(HaveChild(|s.threads|, v), false)
  }

  function Wake(nodes: seq<Node>, c: nat, sense: bool): seq<Node> {
    if c < |nodes| then nodes[c := nodes[c].(wakeupSense := sense)] else nodes
  }

  predicate Enabled(s: State, v: nat)
    requires Shape(s) && v < |s.threads|
  {
    match s.threads[v].pc
    case WaitChildren => s.nodes[v].notReady == [false, false, false, false]
    case AwaitWakeup => s.nodes[v].wakeupSense == s.threads[v].sense
    case _ => true
  }

  /** Thread v's next access, or nothing while it spins. */
  function Next(s: State, v: nat): State
    requires Shape(s)
  {
    if v >= |s.threads| || !Enabled(s, v) then s
    else
      var t := s.threads[v];
      match t.pc
      case Outside => s.(threads := s.threads[v := t.(pc := WaitChildren)])
      case WaitChildren => s.(threads := s.threads[v := t.(pc := Rearm)])
      case Rearm =>
        State(s.nodes[v := s.nodes[v].(notReady := HaveChild(|s.threads|, v))], s.threads[v := t.(pc := Signal)])
      case Signal =>
        if v == 0 then s.(threads := s.threads[v := t.(pc := Notify0)])
        else
          var p := ArrivalParent(v);
          State(s.nodes[p := s.nodes[p].(notReady := s.nodes[p].notReady[ArrivalPart(v) := false])],
                s.threads[v := t.(pc := AwaitWakeup)])
      case AwaitWakeup => s.(threads := s.threads[v := t.(pc := Notify0)])
      case Notify0 => State(Wake(s.nodes, 2 * v + 1, t.sense), s.threads[v := t.(pc := Notify1)])
      case Notify1 => State(Wake(s.nodes, 2 * v + 2, t.sense), s.threads[v := Thread(Outside, !t.sense, t.episode + 1)])
  }

  function Exec(s: State, schedule: seq<nat>): (r: State)
    requires Shape(s)
    ensures Shape(r) && |r.threads| == |s.threads|
    decreases |schedule|
  {
    if schedule == [] then s else Exec(Next(s, schedule[0]), schedule[1..])
  }

  // ---------- what a thread has done, in counters ----------

  function Arrived(t: Thread): nat {
    t.episode + (if t.pc.Outside? then 0 else 1)
  }

  /** How often the thread has set its childnotready again. */
  function Armed(t: Thread): nat {
    t.episode + (if t.pc.Outside? || t.pc.WaitChildren? || t.pc.Rearm? then 0 else 1)
  }

  /** How often the thread has cleared its byte at its parent. */
  function Sent(t: Thread): nat {
    t.episode + (if t.pc.AwaitWakeup? || t.pc.Notify0? || t.pc.Notify1? then 1 else 0)
  }

  /** How often thread v has been woken. */
  function Woken(s: State, v: nat): nat
    requires 0 < v < |s.threads|
  {
    var t := s.threads[WakeupParent(v)];
    t.episode + (if v % 2 == 1 && t.pc.Notify1? then 1 else 0)
  }

  /** The episode the root has seen everyone arrive in. */
  function RootArmed(s: State): nat
    requires Shape(s)
  {
    Armed(s.threads[0])
  }

  predicate ThreadInv(s: State, v: nat)
    requires Shape(s) && v < |s.threads|
  {
    var t := s.threads[v];
    && t.sense == (t.episode % 2 == 0)
    && t.episode <= RootArmed(s)
    && (t.pc.Notify0? || t.pc.Notify1? ==> t.episode + 1 <= RootArmed(s))
    && (v == 0 ==> !t.pc.AwaitWakeup?)
  }

  /** Between a thread and its parent in the arrival tree. */
  predicate ArrivalInv(s: State, v: nat)
    requires Shape(s) && 0 < v < |s.threads|
  {
    var (c, p) := (s.threads[v], s.threads[ArrivalParent(v)]);
    && Armed(p) <= Sent(c) <= Armed(p) + 1
    && (s.nodes[ArrivalParent(v)].notReady[ArrivalPart(v)] <==> Sent(c) == Armed(p))
    && (p.pc.Rearm? ==> Sent(c) == Armed(p) + 1)
  }

  /** Between a thread and its parent in the wakeup tree. */
  predicate WakeupInv(s: State, v: nat)
    requires Shape(s) && 0 < v < |s.threads|
  {
    var t := s.threads[v];
    && t.episode <= Woken(s, v) <= t.episode + 1
    && (t.pc.Notify0? || t.pc.Notify1? ==> Woken(s, v) == t.episode + 1)
    && s.nodes[v].wakeupSense == (Woken(s, v) % 2 == 1)
  }

  /** Bytes of children that do not exist stay clear. */
  predicate AbsentReady(s: State, v: nat)
    requires Shape(s) && v < |s.threads|
  {
    forall i :: 0 <= i < 4 && 4 * v + 1 + i >= |s.threads| ==> !s.nodes[v].notReady[i]
  }

  predicate Inv(s: State) {
    && Shape(s)
    && (forall v :: 0 <= v < |s.threads| ==> ThreadInv(s, v) && AbsentReady(s, v))
    && (forall v :: 0 < v < |s.threads| ==> ArrivalInv(s, v) && WakeupInv(s, v))
  }

  lemma InitInv(s: State)
    requires Init(s)
    ensures Inv(s)
  {
    forall v | 0 < v < |s.threads| ensures ArrivalInv(s, v) && WakeupInv(s, v) {
      ArrivalReachesOnce(v, 0, 0);
    }
  }

  /** What the root has seen, every thread has sent: by induction down the arrival tree. */
  lemma {:induction false} RootBehindAll(s: State, v: nat)
    requires Inv(s) && v < |s.threads|
    ensures RootArmed(s) <= Armed(s.threads[v])
    ensures v > 0 ==> RootArmed(s) <= Sent(s.threads[v])
    decreases v
  {
    if v == 0 {
    } else {
      RootBehindAll(s, ArrivalParent(v));
      assert ArrivalInv(s, v);
    }
  }

  /** No lost arrival: the byte a thread clears is always set, so its parent has re-armed since the last time. */
  lemma ClearsArmedByte(s: State, v: nat)
    requires Inv(s) && 0 < v < |s.threads| && s.threads[v].pc.Signal?
    ensures s.nodes[ArrivalParent(v)].notReady[ArrivalPart(v)]
    ensures Sent(s.threads[v]) == Armed(s.threads[ArrivalParent(v)])
  {
    RootBehindAll(s, ArrivalParent(v));
    assert ArrivalInv(s, v) && ThreadInv(s, v);
  }

  /** Nor does re-arming wipe out an arrival: every byte is clear when the node sets them. */
  lemma RearmsClearNode(s: State, v: nat, i: nat)
    requires Inv(s) && v < |s.threads| && s.threads[v].pc.Rearm? && i < 4
    ensures !s.nodes[v].notReady[i]
  {
    var c := 4 * v + 1 + i;
    if c < |s.threads| {
      ArrivalReachesOnce(c, v, i);
      assert ArrivalInv(s, c) && ArrivalParent(c) == v && ArrivalPart(c) == i;
    } else {
      assert AbsentReady(s, v);
    }
  }

  /** A thread sees its wakeup flag up exactly when it has been woken in this episode. */
  lemma WokenIffSense(s: State, v: nat)
    requires Inv(s) && 0 < v < |s.threads|
    ensures s.nodes[v].wakeupSense == s.threads[v].sense <==> Woken(s, v) == s.threads[v].episode + 1
  {
    assert WakeupInv(s, v) && ThreadInv(s, v);
  }

  // ---------- every step ----------

  /** A thread that sees its wakeup flag up knows the root has seen everyone. */
  lemma WokenMeansRoot(s: State, v: nat)
    requires Inv(s) && 0 < v < |s.threads| && Woken(s, v) == s.threads[v].episode + 1
    ensures s.threads[v].episode + 1 <= RootArmed(s)
  {
    assert ThreadInv(s, WakeupParent(v));
  }

  lemma StepThread(s: State, v: nat, u: nat)
    requires Inv(s) && v < |s.threads| && u < |s.threads| && Enabled(s, v)
    ensures RootArmed(s) <= RootArmed(Next(s, v))
    ensures ThreadInv(Next(s, v), u) && AbsentReady(Next(s, v), u)
  {
    assert ThreadInv(s, u) && AbsentReady(s, u) && ThreadInv(s, v);
    if s.threads[v].pc.AwaitWakeup? {
      WokenIffSense(s, v);
      WokenMeansRoot(s, v);
    }
  }

  /** A thread that finds no byte set has every child one ahead of it. */
  lemma AllClearMeansSent(s: State, v: nat, c: nat)
    requires Inv(s) && v < |s.threads| && 0 < c < |s.threads| && ArrivalParent(c) == v
    requires s.threads[v].pc.WaitChildren? && Enabled(s, v)
    ensures Sent(s.threads[c]) == Armed(s.threads[v]) + 1
  {
    ArrivalReachesOnce(c, v, 0);
    assert ArrivalInv(s, c);
  }

  lemma StepArrival(s: State, v: nat, u: nat)
    requires Inv(s) && v < |s.threads| && 0 < u < |s.threads| && Enabled(s, v)
    ensures ArrivalInv(Next(s, v), u)
  {
    assert ArrivalInv(s, u);
    ArrivalReachesOnce(u, 0, 0);
    match s.threads[v].pc {
      case WaitChildren => if ArrivalParent(u) == v { AllClearMeansSent(s, v, u); }
      case Rearm => RearmArrival(s, v, u);
      case Signal => SignalArrival(s, v, u);
      case _ =>
    }
  }

  lemma RearmArrival(s: State, v: nat, u: nat)
    requires Inv(s) && v < |s.threads| && 0 < u < |s.threads| && s.threads[v].pc.Rearm?
    ensures ArrivalInv(Next(s, v), u)
  {
    assert ArrivalInv(s, u);
    ArrivalReachesOnce(u, 0, 0);
  }

  lemma SignalArrival(s: State, v: nat, u: nat)
    requires Inv(s) && v < |s.threads| && 0 < u < |s.threads| && s.threads[v].pc.Signal?
    ensures ArrivalInv(Next(s, v), u)
  {
    assert ArrivalInv(s, u);
    ArrivalReachesOnce(u, 0, 0);
    if v > 0 {
      ClearsArmedByte(s, v);
      ArrivalReachesOnce(v, ArrivalParent(u), ArrivalPart(u));
    }
  }

  lemma StepWakeup(s: State, v: nat, u: nat)
    requires Inv(s) && v < |s.threads| && 0 < u < |s.threads| && Enabled(s, v)
    ensures WakeupInv(Next(s, v), u)
  {
    assert WakeupInv(s, u) && ThreadInv(s, u) && ThreadInv(s, v);
    match s.threads[v].pc {
      case Signal => assert v == u ==> Woken(Next(s, v), u) == Woken(s, u);
      case AwaitWakeup => WokenIffSense(s, v);
      case Notify0 => NotifyWakeup(s, v, u, 0);
      case Notify1 => NotifyWakeup(s, v, u, 1);
      case _ =>
    }
  }

  lemma NotifyWakeup(s: State, v: nat, u: nat, i: nat)
    requires Inv(s) && v < |s.threads| && 0 < u < |s.threads| && i < 2
    requires s.threads[v].pc == if i == 0 then Notify0 else Notify1
    ensures WakeupInv(Next(s, v), u)
  {
    assert WakeupInv(s, u) && ThreadInv(s, u) && ThreadInv(s, v);
    WakeupReachesOnce(u, v, i);
    RootBehindAll(s, u);
    NotifyTells(s, v, u, i, RootArmed(s));
  }

  lemma NotifyFirst(s: State, v: nat, u: nat, root: nat)
    requires Shape(s) && v < |s.threads| && 0 < u < |s.threads| && s.threads[v].pc.Notify0?
    requires WakeupInv(s, u) && ThreadInv(s, v) && ThreadInv(s, u) && root == RootArmed(s) <= Armed(s.threads[u])
    requires 2 * v + 1 == u ==> v == WakeupParent(u)
    requires WakeupParent(u) < u && 2 * WakeupParent(u) + 1 <= u <= 2 * WakeupParent(u) + 2
    ensures WakeupInv(Next(s, v), u)
  {
  }

  lemma NotifySecond(s: State, v: nat, u: nat, root: nat)
    requires Shape(s) && v < |s.threads| && 0 < u < |s.threads| && s.threads[v].pc.Notify1?
    requires WakeupInv(s, u) && ThreadInv(s, v) && ThreadInv(s, u) && root == RootArmed(s) <= Armed(s.threads[u])
    requires 2 * v + 2 == u ==> v == WakeupParent(u)
    requires WakeupParent(u) < u && 2 * WakeupParent(u) + 1 <= u <= 2 * WakeupParent(u) + 2
    ensures WakeupInv(Next(s, v), u)
  {
  }

  /** The thread notified has not been before in this episode; nobody else notices. */
  lemma NotifyTells(s: State, v: nat, u: nat, i: nat, root: nat)
    requires Shape(s) && v < |s.threads| && 0 < u < |s.threads| && i < 2
    requires s.threads[v].pc == if i == 0 then Notify0 else Notify1
    requires WakeupInv(s, u) && ThreadInv(s, v) && ThreadInv(s, u) && root == RootArmed(s)
    requires root <= Armed(s.threads[u])
    requires 2 * v + 1 + i == u ==> v == WakeupParent(u) && i == (u - 1) % 2
    requires WakeupParent(u) < u && 2 * WakeupParent(u) + 1 <= u <= 2 * WakeupParent(u) + 2
    ensures WakeupInv(Next(s, v), u)
  {
    if i == 0 {
      NotifyFirst(s, v, u, root);
    } else {
      NotifySecond(s, v, u, root);
    }
  }

  lemma NextInv(s: State, v: nat)
    requires Inv(s)
    ensures Inv(Next(s, v))
  {
    var r := Next(s, v);
    if v < |s.threads| && Enabled(s, v) {
      forall u | 0 <= u < |r.threads| ensures ThreadInv(r, u) && AbsentReady(r, u) {
        StepThread(s, v, u);
      }
      forall u | 0 < u < |r.threads| ensures ArrivalInv(r, u) && WakeupInv(r, u) {
        StepArrival(s, v, u);
        StepWakeup(s, v, u);
      }
    }
  }

  lemma {:induction false} ExecInv(s: State, schedule: seq<nat>)
    requires Inv(s)
    ensures Inv(Exec(s, schedule))
    decreases |schedule|
  {
    if schedule == [] {
    } else {
      NextInv(s, schedule[0]);
      ExecInv(Next(s, schedule[0]), schedule[1..]);
    }
  }

  // ---------- main results ----------

  /** Barrier: in every run, whoever has left episode e left it after all threads had entered it. */
  lemma BarrierHolds(s: State, schedule: seq<nat>, u: nat, v: nat, e: nat)
    requires Init(s) && u < |s.threads| && v < |s.threads|
    ensures var r := Exec(s, schedule);
      r.threads[u].episode > e ==> Arrived(r.threads[v]) > e
  {
    InitInv(s);
    ExecInv(s, schedule);
    var r := Exec(s, schedule);
    RootBehindAll(r, v);
    assert ThreadInv(r, u);
  }

  /**
  Clearing and re-arming never collide: a byte is set whenever its child clears it, clear whenever its node
  sets it.
  */
  lemma ArrivalsNeverLost(s: State, schedule: seq<nat>, v: nat, i: nat)
    requires Init(s) && v < |s.threads| && i < 4
    ensures var r := Exec(s, schedule);
      && (v > 0 && r.threads[v].pc.Signal? ==> ArrivalPart(v) < 4 && r.nodes[ArrivalParent(v)].notReady[ArrivalPart(v)])
      && (r.threads[v].pc.Rearm? ==> !r.nodes[v].notReady[i])
  {
    InitInv(s);
    ExecInv(s, schedule);
    var r := Exec(s, schedule);
    if v > 0 && r.threads[v].pc.Signal? {
      ClearsArmedByte(r, v);
      ArrivalReachesOnce(v, 0, 0);
    }
    if r.threads[v].pc.Rearm? {
      RearmsClearNode(r, v, i);
    }
  }

  /** Who waits for a wakeup the root has already set off can be traced up the wakeup tree to somebody who can step. */
  lemma {:induction false} WakerCanStep(s: State, v: nat) returns (w: nat)
    requires Inv(s) && v < |s.threads| && s.threads[v].pc.AwaitWakeup? && s.threads[v].episode < RootArmed(s)
    ensures w < |s.threads| && Enabled(s, w)
    decreases v
  {
    assert ThreadInv(s, v);
    if Enabled(s, v) {
      w := v;
    } else {
      w := WakeupParent(v);
      WokenIffSense(s, v);
      assert WakeupInv(s, v);
      RootBehindAll(s, w);
      if s.threads[w].pc.AwaitWakeup? {
        w := WakerCanStep(s, w);
      }
    }
  }

  /** Who waits for its children can be traced down the arrival tree. */
  lemma {:induction false} ChildCanStep(s: State, v: nat) returns (w: nat)
    requires Inv(s) && v < |s.threads| && s.threads[v].pc.WaitChildren?
    ensures w < |s.threads| && Enabled(s, w)
    decreases |s.threads| - v
  {
    if Enabled(s, v) {
      w := v;
    } else {
      var i :| 0 <= i < 4 && s.nodes[v].notReady[i];
      w := 4 * v + 1 + i;
      assert AbsentReady(s, v) && ThreadInv(s, v);
      ArrivalReachesOnce(w, v, i);
      assert ArrivalInv(s, w);
      if s.threads[w].pc.WaitChildren? {
        w := ChildCanStep(s, w);
      } else if s.threads[w].pc.AwaitWakeup? {
        w := WakerCanStep(s, w);
      }
    }
  }

  /** No deadlock: in every reachable state some thread can step. */
  lemma SomeoneCanStep(s: State, schedule: seq<nat>) returns (w: nat)
    requires Init(s)
    ensures var r := Exec(s, schedule);
      w < |r.threads| && Enabled(r, w) && Next(r, w) != r
  {
    InitInv(s);
    ExecInv(s, schedule);
    var r := Exec(s, schedule);
    assert ThreadInv(r, 0);
    if r.threads[0].pc.WaitChildren? {
      w := ChildCanStep(r, 0);
    } else {
      w := 0;
    }
    assert Next(r, w).threads[w] != r.threads[w];
  }

  // ---------- what a call costs ----------

  /** How often thread v gets an access done in a run; a look that finds nothing is none. */
  function Accesses(s: State, schedule: seq<nat>, v: nat): nat
    requires Shape(s)
    decreases |schedule|
  {
    if schedule == [] then 0
    else
      var r := Next(s, schedule[0]);
      One(schedule[0] == v && r != s) + Accesses(r, schedule[1..], v)
  }

  /** A call goes through every program point in turn; only the root waits for no wakeup. */
  function CallLength(v: nat): nat {
    if v == 0 then 6 else 7
  }

  function Rank(v: nat, pc: Pc): nat {
    match pc
    case Outside => 0
    case WaitChildren => 1
    case Rearm => 2
    case Signal => 3
    case AwaitWakeup => 4
    case Notify0 => CallLength(v) - 2
    case Notify1 => CallLength(v) - 1
  }

  function Position(v: nat, t: Thread): nat {
    CallLength(v) * t.episode + Rank(v, t.pc)
  }

  lemma StepPosition(s: State, a: nat, v: nat)
    requires Inv(s) && v < |s.threads|
    ensures |Next(s, a).threads| == |s.threads|
    ensures Position(v, Next(s, a).threads[v]) == Position(v, s.threads[v]) + One(a == v && Next(s, a) != s)
  {
    assert ThreadInv(s, v);
    if a == v && Enabled(s, v) {
      assert Next(s, v).threads[v] != s.threads[v];
    }
  }

  lemma {:induction false} AccessesFrom(s: State, schedule: seq<nat>, v: nat)
    requires Inv(s) && v < |s.threads|
    ensures Position(v, Exec(s, schedule).threads[v]) == Position(v, s.threads[v]) + Accesses(s, schedule, v)
    decreases |schedule|
  {
    if schedule == [] {
    } else {
      NextInv(s, schedule[0]);
      StepPosition(s, schedule[0], v);
      AccessesFrom(Next(s, schedule[0]), schedule[1..], v);
    }
  }

  /**
  Nobody skips an access: in every run a thread that has left e barriers has taken all the 7 steps of each, the
  root all its 6, besides those of the call it is in.
  */
  lemma AccessesPerBarrier(s: State, schedule: seq<nat>, v: nat)
    requires Init(s) && v < |s.threads|
    ensures var t := Exec(s, schedule).threads[v];
      && Accesses(s, schedule, v) == (if v == 0 then 6 else 7) * t.episode + Rank(v, t.pc)
      && Rank(v, t.pc) < (if v == 0 then 6 else 7)
  {
    InitInv(s);
    AccessesFrom(s, schedule, v);
  }
}
