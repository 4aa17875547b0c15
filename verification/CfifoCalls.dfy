/** What a whole call of a put, a get or a transfer does, and that it comes to an end. */
module CfifoCalls {
  import opened Arith
  import opened CfifoRing

  function StepsLeft(th: Thread): nat {
    match th.pc
    case Idle => 0
    case PutLock => 6
    case PutCheck => 5
    case PutRefuse => 1
    case PutWrite => 4
    case PutTail => 3
    case PutNotEmpty => 2
    case PutUnlock => 1
    case GetLock => 10
    case GetCheck => 9
    case GetNull => 1
    case GetHead => 8
    case GetRead => 7
    case GetCompare => 6
    case GetLockTail => 5
    case GetCompareTail => 4
    case GetSetEmpty => 3
    case GetUnlockTail => 2
    case GetUnlock => 1
    case TransferPeek(size, _) => 12 + size
    case TransferLock(asked, _) => 11 + asked
    case TransferCheck(asked, _) => 10 + asked
    case TransferNull => 1
    case TransferCount(asked, _) => 9 + asked
    case TransferCopy => if th.want > |th.chunk| then 8 + th.want - |th.chunk| else 8
    case TransferHead => 7
  }

  /** An operation is over after a bounded number of steps of its thread that are not blocked. */
  lemma OperationsProgress(s: State, schedule: seq<Action>, t: nat)
    requires Init(s)
    ensures var r := Exec(s, schedule);
      t < |r.threads| && !r.threads[t].pc.Idle? && !Blocked(r, t) ==>
        && |Next(r, Step(t)).threads| == |r.threads|
        && StepsLeft(Next(r, Step(t)).threads[t]) < StepsLeft(r.threads[t])
  {
    InitInv(s);
    ExecInv(s, schedule);
    var r := Exec(s, schedule);
    if t < |r.threads| {
      if IsPut(r.threads[t].pc) {
        PutProgress(r, t);
      } else if IsTransfer(r.threads[t].pc) {
        TransferProgress(r, t);
      } else {
        GetProgress(r, t);
      }
    }
  }

  lemma PutProgress(s: State, t: nat)
    requires Shape(s) && t < |s.threads| && IsPut(s.threads[t].pc)
    ensures |StepPut(s, t).threads| == |s.threads|
    ensures !Blocked(s, t) ==> StepsLeft(StepPut(s, t).threads[t]) < StepsLeft(s.threads[t])
  {
  }

  lemma GetProgress(s: State, t: nat)
    requires Shape(s) && t < |s.threads| && IsGet(s.threads[t].pc)
    ensures |StepGet(s, t).threads| == |s.threads|
    ensures !s.threads[t].pc.Idle? && !Blocked(s, t) ==> StepsLeft(StepGet(s, t).threads[t]) < StepsLeft(s.threads[t])
  {
    if HasTaken(s.threads[t].pc) { TakenProgress(s, t); }
  }

  lemma TakenProgress(s: State, t: nat)
    requires Shape(s) && t < |s.threads| && HasTaken(s.threads[t].pc)
    ensures |StepGet(s, t).threads| == |s.threads|
    ensures !Blocked(s, t) ==> StepsLeft(StepGet(s, t).threads[t]) < StepsLeft(s.threads[t])
  {
  }

  lemma TransferProgress(s: State, t: nat)
    requires Inv(s) && t < |s.threads| && IsTransfer(s.threads[t].pc)
    ensures |StepTransfer(s, t).threads| == |s.threads|
    ensures !Blocked(s, t) ==> StepsLeft(StepTransfer(s, t).threads[t]) < StepsLeft(s.threads[t])
  {
    if s.threads[t].pc.TransferCount? {
      UsedIsContents(s);
      CountProgress(s, t);
    } else {
      ReadProgress(s, t);
    }
  }

  lemma CountProgress(s: State, t: nat)
    requires Shape(s) && t < |s.threads| && s.threads[t].pc.TransferCount?
    ensures |StepTransfer(s, t).threads| == |s.threads|
    ensures StepsLeft(StepTransfer(s, t).threads[t]) < StepsLeft(s.threads[t])
  {
  }

  lemma ReadProgress(s: State, t: nat)
    requires Shape(s) && t < |s.threads| && IsTransfer(s.threads[t].pc) && !s.threads[t].pc.TransferCount?
    ensures |StepTransfer(s, t).threads| == |s.threads|
    ensures !Blocked(s, t) ==> StepsLeft(StepTransfer(s, t).threads[t]) < StepsLeft(s.threads[t])
  {
  }

  // ---------- what happens in a call ----------

  /** The schedule has no further call by thread t. */
  predicate NoCall(schedule: seq<Action>, t: nat) {
    forall a :: a in schedule && a.t == t ==> a.Step?
  }

  /** What thread t's steps have added to puts ... */
  function PutsBy(s: State, schedule: seq<Action>, t: nat): seq<Item>
    requires Shape(s)
    decreases |schedule|
  {
    if schedule == [] then []
    else
      var s1 := Next(s, schedule[0]);
      (if schedule[0] == Step(t) then Added(s.puts, s1.puts) else []) + PutsBy(s1, schedule[1..], t)
  }

  /** ... and to gets. */
  function GetsBy(s: State, schedule: seq<Action>, t: nat): seq<Item>
    requires Shape(s)
    decreases |schedule|
  {
    if schedule == [] then []
    else
      var s1 := Next(s, schedule[0]);
      (if schedule[0] == Step(t) then Added(s.gets, s1.gets) else []) + GetsBy(s1, schedule[1..], t)
  }

  function Added(a: seq<Item>, b: seq<Item>): seq<Item> {
    if |a| <= |b| then b[|a|..] else []
  }

  /** What has been the case at some moment: the ring full, all completed puts consumed, so many items there. */
  datatype Saw = Saw(full: bool, drained: bool, counts: set<int>)

  function SawNow(s: State): Saw {
    Saw(|s.puts| - s.heads == |s.slots| - 1, |s.gets| == s.completed, {|s.puts| - |s.gets|})
  }

  function Both(a: Saw, b: Saw): Saw {
    Saw(a.full || b.full, a.drained || b.drained, a.counts + b.counts)
  }

  /** At the moments of a run, the first and the last included. */
  function SawIn(s: State, schedule: seq<Action>): Saw
    requires Shape(s)
    decreases |schedule|
  {
    if schedule == [] then SawNow(s) else Both(SawNow(s), SawIn(Next(s, schedule[0]), schedule[1..]))
  }

  /** n was the least of what was asked for, what was there, and what fits. */
  predicate SawSize(saw: Saw, asked: nat, room: nat, n: nat) {
    exists c :: c in saw.counts && n == Min(Min(asked, c), room)
  }

  lemma SawMore(a: Saw, b: Saw, asked: nat, room: nat, n: nat)
    requires SawSize(b, asked, room, n)
    ensures SawSize(Both(a, b), asked, room, n)
  {
    var c :| c in b.counts && n == Min(Min(asked, c), room);
    assert c in Both(a, b).counts;
  }

  /** How an operation goes on: with the answer in r, what its thread puts and gets, and what is the case till then. */
  predicate Ends(th: Thread, r: Thread, puts: seq<Item>, gets: seq<Item>, saw: Saw) {
    if IsPut(th.pc) then gets == [] && PutEnds(th, r.ok, puts, saw)
    else if IsTransfer(th.pc) then puts == [] && TransferEnds(th, r.chunk, gets, saw)
    else puts == [] && GetEnds(th, r, gets, saw)
  }

  predicate PutEnds(th: Thread, ok: bool, puts: seq<Item>, saw: Saw) {
    match th.pc
    case PutWrite => ok && puts == [th.item]
    case PutTail => ok && puts == [th.item]
    case PutNotEmpty => ok && puts == []
    case PutUnlock => ok && puts == []
    case PutRefuse => !ok && puts == []
    case _ => puts == (if ok then [th.item] else []) && (!ok ==> saw.full)
  }

  predicate GetEnds(th: Thread, r: Thread, gets: seq<Item>, saw: Saw) {
    if th.pc.Idle? then r == th && gets == []
    else if HasTaken(th.pc) || th.pc.GetNull? then r.chunk == th.chunk && gets == []
    else if th.pc.GetLock? || th.pc.GetCheck? then
      th.chunk == [] ==> r.chunk == gets && (|gets| == 1 || (gets == [] && saw.drained))
    else r.chunk == gets && |gets| == 1
  }

  predicate TransferEnds(th: Thread, chunk: seq<Item>, gets: seq<Item>, saw: Saw) {
    match th.pc
    case TransferPeek(size, room) => th.chunk == [] ==> TransferIs(chunk, gets, size, room, saw)
    case TransferLock(asked, room) => th.chunk == [] ==> TransferIs(chunk, gets, asked, room, saw)
    case TransferCheck(asked, room) => th.chunk == [] ==> TransferIs(chunk, gets, asked, room, saw)
    case TransferCount(asked, room) => chunk == gets && SawSize(saw, asked, room, |gets|)
    case TransferNull => chunk == th.chunk && gets == []
    case _ => chunk == gets && |gets| == th.want
  }

  /** A transfer gives back what it has taken: all it can, or nothing, the ring drained or nothing asked for. */
  predicate TransferIs(chunk: seq<Item>, gets: seq<Item>, size: nat, room: nat, saw: Saw) {
    && chunk == gets
    && (SawSize(saw, size, room, |gets|) || (gets == [] && (size == 0 || saw.drained)))
  }

  // ---------- a step of the thread's own, seen from the thread ----------

  predicate PutMove(th: Thread, th': Thread, puts: seq<Item>, now: Saw) {
    match th.pc
    case PutLock => puts == [] && (th' == th || th' == th.(pc := PutCheck))
    case PutCheck => puts == [] && (th' == th.(pc := PutWrite) || (th' == th.(pc := PutRefuse) && now.full))
    case PutRefuse => puts == [] && th' == th.(pc := Idle, ok := false)
    case PutWrite => puts == [] && th' == th.(pc := PutTail)
    case PutTail => puts == [th.item] && th' == th.(pc := PutNotEmpty)
    case PutNotEmpty => puts == [] && th' == th.(pc := PutUnlock)
    case _ => puts == [] && th' == th.(pc := Idle, ok := true)
  }

  lemma PutMoved(s: State, t: nat)
    requires Inv(s) && t < |s.threads| && IsPut(s.threads[t].pc)
    ensures var s1 := StepPut(s, t);
      && |s1.threads| == |s.threads| && s1.gets == s.gets
      && PutMove(s.threads[t], s1.threads[t], Added(s.puts, s1.puts), SawNow(s))
  {
    if s.threads[t].pc.PutCheck? { FullCheck(s); }
  }

  lemma PutEndsStep(th: Thread, th': Thread, added: seq<Item>, now: Saw, r: Thread, puts: seq<Item>, saw: Saw)
    requires IsPut(th.pc) && PutMove(th, th', added, now) && Ends(th', r, puts, [], saw)
    ensures Ends(th, r, added + puts, [], Both(now, saw))
  {
  }

  predicate GetMove(th: Thread, th': Thread, gets: seq<Item>, now: Saw) {
    match th.pc
    case GetLock => gets == [] && (th' == th || th' == th.(pc := GetCheck))
    case GetCheck => gets == [] && (th' == th.(pc := GetHead) || (th' == th.(pc := GetNull) && now.drained))
    case GetNull => gets == [] && th' == th.(pc := Idle)
    case GetHead => gets == [] && th' == th.(pc := GetRead)
    case GetRead => |gets| == 1 && th' == th.(pc := GetCompare, want := 1, chunk := gets)
    case GetUnlock => gets == [] && th' == th.(pc := Idle)
    case Idle => gets == [] && th' == th
    case _ => gets == [] && HasTaken(th'.pc) && th'.chunk == th.chunk
  }

  lemma GetMoved(s: State, t: nat)
    requires Inv(s) && t < |s.threads| && IsGet(s.threads[t].pc)
    ensures var s1 := StepGet(s, t);
      && |s1.threads| == |s.threads| && s1.puts == s.puts
      && GetMove(s.threads[t], s1.threads[t], Added(s.gets, s1.gets), SawNow(s))
  {
    if HasTaken(s.threads[t].pc) { TakenMoved(s, t); }
  }

  lemma TakenMoved(s: State, t: nat)
    requires Shape(s) && t < |s.threads| && HasTaken(s.threads[t].pc)
    ensures var s1 := StepGet(s, t);
      && |s1.threads| == |s.threads| && s1.puts == s.puts
      && GetMove(s.threads[t], s1.threads[t], Added(s.gets, s1.gets), SawNow(s))
  {
  }

  lemma GetEndsStep(th: Thread, th': Thread, added: seq<Item>, now: Saw, r: Thread, gets: seq<Item>, saw: Saw)
    requires IsGet(th.pc) && GetMove(th, th', added, now) && Ends(th', r, [], gets, saw)
    ensures Ends(th, r, [], added + gets, Both(now, saw))
  {
  }

  predicate TransferMove(th: Thread, th': Thread, gets: seq<Item>, now: Saw) {
    match th.pc
    case TransferPeek(size, room) =>
      && gets == []
      && ((size >= 1 && th' == th.(pc := TransferLock(size, room)))
          || ((size == 0 || now.drained) && th' == th.(pc := Idle)))
    case TransferLock(asked, room) => gets == [] && (th' == th || th' == th.(pc := TransferCheck(asked, room)))
    case TransferCheck(asked, room) =>
      && gets == []
      && (th' == th.(pc := TransferCount(asked, room)) || (now.drained && th' == th.(pc := TransferNull)))
    case TransferNull => gets == [] && th' == th.(pc := Idle)
    case TransferCount(asked, room) => gets == [] && th'.pc.TransferCopy? && SawSize(now, asked, room, th'.want)
    case TransferCopy => gets == [] && th'.want == th.want && (th'.pc.TransferCopy? || th'.pc.TransferHead?)
    case _ => th' == th.(pc := GetCompare) && gets == th.chunk && |gets| == th.want
  }

  lemma TransferMoved(s: State, t: nat)
    requires Inv(s) && t < |s.threads| && IsTransfer(s.threads[t].pc)
    ensures var s1 := StepTransfer(s, t);
      && |s1.threads| == |s.threads| && s1.puts == s.puts
      && TransferMove(s.threads[t], s1.threads[t], Added(s.gets, s1.gets), SawNow(s))
  {
    if s.threads[t].pc.TransferCount? {
      UsedIsContents(s);
      CountMoved(s, t);
    }
  }

  lemma CountMoved(s: State, t: nat)
    requires Shape(s) && t < |s.threads| && s.threads[t].pc.TransferCount?
    requires 0 <= UsedSlots(s) == |s.puts| - |s.gets|
    ensures var s1 := StepTransfer(s, t);
      && |s1.threads| == |s.threads| && s1.puts == s.puts
      && TransferMove(s.threads[t], s1.threads[t], Added(s.gets, s1.gets), SawNow(s))
  {
    assert |s.puts| - |s.gets| in SawNow(s).counts;
  }

  lemma TransferIsMore(chunk: seq<Item>, gets: seq<Item>, size: nat, room: nat, now: Saw, saw: Saw)
    requires TransferIs(chunk, gets, size, room, saw)
    ensures TransferIs(chunk, gets, size, room, Both(now, saw))
  {
    if SawSize(saw, size, room, |gets|) { SawMore(now, saw, size, room, |gets|); }
  }

  lemma TransferEndsStep(th: Thread, th': Thread, added: seq<Item>, now: Saw, r: Thread, gets: seq<Item>, saw: Saw)
    requires IsTransfer(th.pc) && TransferMove(th, th', added, now) && Ends(th', r, [], gets, saw)
    ensures Ends(th, r, [], added + gets, Both(now, saw))
  {
    if th.pc.TransferHead? || th.pc.TransferCopy? || th.pc.TransferNull? {
      AfterCount(th, th', added, now, r, gets, saw);
    } else {
      BeforeCopy(th, th', added, now, r, gets, saw);
    }
  }

  lemma AfterCount(th: Thread, th': Thread, added: seq<Item>, now: Saw, r: Thread, gets: seq<Item>, saw: Saw)
    requires th.pc.TransferHead? || th.pc.TransferCopy? || th.pc.TransferNull?
    requires TransferMove(th, th', added, now) && Ends(th', r, [], gets, saw)
    ensures Ends(th, r, [], added + gets, Both(now, saw))
  {
    if !th.pc.TransferHead? { assert added + gets == gets; }
  }

  lemma BeforeCopy(th: Thread, th': Thread, added: seq<Item>, now: Saw, r: Thread, gets: seq<Item>, saw: Saw)
    requires th.pc.TransferPeek? || th.pc.TransferLock? || th.pc.TransferCheck? || th.pc.TransferCount?
    requires TransferMove(th, th', added, now) && Ends(th', r, [], gets, saw)
    ensures Ends(th, r, [], added + gets, Both(now, saw))
  {
    assert added + gets == gets;
    if th == th' {
      OthersStep(now, th, r, [], gets, saw);
    } else if th'.pc.TransferCopy? {
      var c :| c in now.counts && th'.want == Min(Min(th.pc.asked, c), th.pc.room);
      assert c in Both(now, saw).counts;
    } else if th'.pc.TransferLock? && th.chunk == [] {
      TransferIsMore(r.chunk, gets, th'.pc.asked, th'.pc.room, now, saw);
    } else if th'.pc.TransferCheck? && th.chunk == [] {
      TransferIsMore(r.chunk, gets, th'.pc.asked, th'.pc.room, now, saw);
    } else if th'.pc.TransferCount? {
      SawMore(now, saw, th'.pc.asked, th'.pc.room, |gets|);
    }
  }

  lemma OwnStep(s: State, t: nat, r: Thread, puts: seq<Item>, gets: seq<Item>, saw: Saw)
    requires Inv(s) && t < |s.threads| && |Next(s, Step(t)).threads| == |s.threads|
    requires Ends(Next(s, Step(t)).threads[t], r, puts, gets, saw)
    ensures var s1 := Next(s, Step(t));
      Ends(s.threads[t], r, Added(s.puts, s1.puts) + puts, Added(s.gets, s1.gets) + gets, Both(SawNow(s), saw))
  {
    if IsPut(s.threads[t].pc) {
      OwnPut(s, t, r, puts, gets, saw);
    } else if IsTransfer(s.threads[t].pc) {
      OwnTransfer(s, t, r, puts, gets, saw);
    } else {
      OwnGet(s, t, r, puts, gets, saw);
    }
  }

  lemma OwnPut(s: State, t: nat, r: Thread, puts: seq<Item>, gets: seq<Item>, saw: Saw)
    requires Inv(s) && t < |s.threads| && IsPut(s.threads[t].pc) && |StepPut(s, t).threads| == |s.threads|
    requires Ends(StepPut(s, t).threads[t], r, puts, gets, saw)
    ensures var s1 := StepPut(s, t);
      Ends(s.threads[t], r, Added(s.puts, s1.puts) + puts, Added(s.gets, s1.gets) + gets, Both(SawNow(s), saw))
  {
    PutMoved(s, t);
    AfterPut(s.threads[t], StepPut(s, t).threads[t], Added(s.puts, StepPut(s, t).puts), SawNow(s), r, puts, gets, saw);
  }

  lemma AfterPut(
      th: Thread, th': Thread, added: seq<Item>, now: Saw, r: Thread, puts: seq<Item>, gets: seq<Item>, saw: Saw)
    requires IsPut(th.pc) && PutMove(th, th', added, now) && Ends(th', r, puts, gets, saw)
    ensures Ends(th, r, added + puts, [] + gets, Both(now, saw))
  {
    assert gets == [];
    PutEndsStep(th, th', added, now, r, puts, saw);
  }

  lemma OwnTransfer(s: State, t: nat, r: Thread, puts: seq<Item>, gets: seq<Item>, saw: Saw)
    requires Inv(s) && t < |s.threads| && IsTransfer(s.threads[t].pc) && |StepTransfer(s, t).threads| == |s.threads|
    requires Ends(StepTransfer(s, t).threads[t], r, puts, gets, saw)
    ensures var s1 := StepTransfer(s, t);
      Ends(s.threads[t], r, Added(s.puts, s1.puts) + puts, Added(s.gets, s1.gets) + gets, Both(SawNow(s), saw))
  {
    var th' := StepTransfer(s, t).threads[t];
    TransferMoved(s, t);
    AfterTransfer(s.threads[t], th', Added(s.gets, StepTransfer(s, t).gets), SawNow(s), r, puts, gets, saw);
  }

  lemma AfterTransfer(
      th: Thread, th': Thread, added: seq<Item>, now: Saw, r: Thread, puts: seq<Item>, gets: seq<Item>, saw: Saw)
    requires IsTransfer(th.pc) && TransferMove(th, th', added, now) && Ends(th', r, puts, gets, saw)
    ensures Ends(th, r, [] + puts, added + gets, Both(now, saw))
  {
    assert puts == [];
    TransferEndsStep(th, th', added, now, r, gets, saw);
  }

  lemma OwnGet(s: State, t: nat, r: Thread, puts: seq<Item>, gets: seq<Item>, saw: Saw)
    requires Inv(s) && t < |s.threads| && IsGet(s.threads[t].pc) && |StepGet(s, t).threads| == |s.threads|
    requires Ends(StepGet(s, t).threads[t], r, puts, gets, saw)
    ensures var s1 := StepGet(s, t);
      Ends(s.threads[t], r, Added(s.puts, s1.puts) + puts, Added(s.gets, s1.gets) + gets, Both(SawNow(s), saw))
  {
    GetMoved(s, t);
    AfterGet(s.threads[t], StepGet(s, t).threads[t], Added(s.gets, StepGet(s, t).gets), SawNow(s), r, puts, gets, saw);
  }

  lemma AfterGet(
      th: Thread, th': Thread, added: seq<Item>, now: Saw, r: Thread, puts: seq<Item>, gets: seq<Item>, saw: Saw)
    requires IsGet(th.pc) && GetMove(th, th', added, now) && Ends(th', r, puts, gets, saw)
    ensures Ends(th, r, [] + puts, added + gets, Both(now, saw))
  {
    assert puts == [];
    GetEndsStep(th, th', added, now, r, gets, saw);
  }

  /** Another's step leaves the thread alone. */
  lemma OthersStep(now: Saw, th: Thread, r: Thread, puts: seq<Item>, gets: seq<Item>, saw: Saw)
    requires Ends(th, r, puts, gets, saw)
    ensures Ends(th, r, puts, gets, Both(now, saw))
  {
    match th.pc {
      case TransferPeek(size, room) => if th.chunk == [] { TransferIsMore(r.chunk, gets, size, room, now, saw); }
      case TransferLock(asked, room) => if th.chunk == [] { TransferIsMore(r.chunk, gets, asked, room, now, saw); }
      case TransferCheck(asked, room) => if th.chunk == [] { TransferIsMore(r.chunk, gets, asked, room, now, saw); }
      case TransferCount(asked, room) => SawMore(now, saw, asked, room, |gets|);
      case _ =>
    }
  }

  lemma ThreadOf(s: State, a: Action, t: nat)
    requires Inv(s) && t < |s.threads| && (a.t == t ==> a.Step?)
    ensures Inv(Next(s, a)) && |Next(s, a).threads| == |s.threads|
    ensures a != Step(t) ==> Next(s, a).threads[t] == s.threads[t]
  {
    NextInv(s, a);
    if a.t < |s.threads| && a.Step? {
      if IsPut(s.threads[a.t].pc) {
        PutMoves(s, a.t);
      } else if IsTransfer(s.threads[a.t].pc) {
        TransferMoves(s, a.t);
      } else {
        GetMoves(s, a.t);
      }
    }
  }

  /** One step more in front. */
  lemma CallStep(s: State, a: Action, rest: seq<Action>, t: nat, r: Thread)
    requires Inv(s) && t < |s.threads| && (a.t == t ==> a.Step?)
    requires var s1 := Next(s, a);
      && |s1.threads| == |s.threads| && (a != Step(t) ==> s1.threads[t] == s.threads[t])
      && Ends(s1.threads[t], r, PutsBy(s1, rest, t), GetsBy(s1, rest, t), SawIn(s1, rest))
    ensures Ends(s.threads[t], r, PutsBy(s, [a] + rest, t), GetsBy(s, [a] + rest, t), SawIn(s, [a] + rest))
  {
    var s1 := Next(s, a);
    var puts, gets := PutsBy(s1, rest, t), GetsBy(s1, rest, t);
    assert ([a] + rest)[1..] == rest;
    if a == Step(t) {
      OwnStep(s, t, r, puts, gets, SawIn(s1, rest));
    } else {
      OthersStep(SawNow(s), s.threads[t], r, puts, gets, SawIn(s1, rest));
      assert [] + puts == puts && [] + gets == gets;
    }
  }

  lemma {:induction false} CallFrom(s: State, schedule: seq<Action>, t: nat)
    requires Inv(s) && t < |s.threads| && NoCall(schedule, t)
    requires t < |Exec(s, schedule).threads| && Exec(s, schedule).threads[t].pc.Idle?
    ensures Ends(s.threads[t], Exec(s, schedule).threads[t], PutsBy(s, schedule, t), GetsBy(s, schedule, t),
        SawIn(s, schedule))
    decreases |schedule|
  {
    if schedule == [] {
    } else {
      var a := schedule[0];
      assert a in schedule;
      ThreadOf(s, a, t);
      CallFrom(Next(s, a), schedule[1..], t);
      CallStep(s, a, schedule[1..], t, Exec(s, schedule).threads[t]);
      assert [a] + schedule[1..] == schedule;
    }
  }

  /** A call made in a run, and over at the end of `during`. */
  predicate CallIsOver(s: State, before: seq<Action>, call: Action, during: seq<Action>)
    requires Shape(s)
  {
    var (r, t) := (Exec(s, before), call.t);
    && t < |r.threads| && r.threads[t].pc.Idle? && NoCall(during, t)
    && var r' := Exec(Next(r, call), during);
    t < |r'.threads| && r'.threads[t].pc.Idle?
  }

  lemma CallEnds(s: State, before: seq<Action>, call: Action, during: seq<Action>)
    requires Init(s) && CallIsOver(s, before, call, during) && !call.Step?
    ensures var s1, t := Next(Exec(s, before), call), call.t;
      && t < |s1.threads|
      && Ends(s1.threads[t], Exec(s1, during).threads[t], PutsBy(s1, during, t), GetsBy(s1, during, t),
           SawIn(s1, during))
  {
    InitInv(s);
    ExecInv(s, before);
    NextInv(Exec(s, before), call);
    CallFrom(Next(Exec(s, before), call), during, call.t);
  }

  /** A put that is over has put its item once and says so, or nothing and says so, the ring having been full. */
  lemma PutReturns(s: State, before: seq<Action>, t: nat, item: Item, during: seq<Action>)
    requires Init(s) && CallIsOver(s, before, StartPut(t, item), during)
    ensures var s1 := Next(Exec(s, before), StartPut(t, item));
      var ok := Exec(s1, during).threads[t].ok;
      && PutsBy(s1, during, t) == (if ok then [item] else []) && GetsBy(s1, during, t) == []
      && (!ok ==> SawIn(s1, during).full)
  {
    CallEnds(s, before, StartPut(t, item), during);
  }

  /** A get that is over returns the one item it has taken, or NULL, every completed put having been consumed. */
  lemma GetReturns(s: State, before: seq<Action>, t: nat, during: seq<Action>)
    requires Init(s) && CallIsOver(s, before, StartGet(t), during)
    ensures var s1 := Next(Exec(s, before), StartGet(t));
      var got := Exec(s1, during).threads[t].chunk;
      && got == GetsBy(s1, during, t) && PutsBy(s1, during, t) == []
      && (|got| == 1 || (got == [] && SawIn(s1, during).drained))
  {
    CallEnds(s, before, StartGet(t), during);
  }

  /** A transfer that is over has taken all it can, or nothing, the ring having been drained or nothing asked for. */
  lemma TransferReturns(s: State, before: seq<Action>, t: nat, size: nat, room: Positive, during: seq<Action>)
    requires Init(s) && CallIsOver(s, before, StartTransfer(t, size, room), during)
    ensures var s1 := Next(Exec(s, before), StartTransfer(t, size, room));
      && PutsBy(s1, during, t) == []
      && TransferIs(Exec(s1, during).threads[t].chunk, GetsBy(s1, during, t), size, room, SawIn(s1, during))
  {
    CallEnds(s, before, StartTransfer(t, size, room), during);
  }
}
