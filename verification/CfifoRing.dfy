/**
The two-lock FIFO ring: putters serialise on lock2, getters and transfers of chunks on lock1, and the only shared
accesses outside the locks are reads of the other end's index and of is_empty.  Every access and every lock operation
is one step; the number of threads, the capacity and the length of the run are unbounded.  The queue a chunk goes to
is its thread's own until the transfer is over.
*/
module CfifoRing {
  import opened Arith

  type Item = int

  type Positive = n: nat | n >= 1 witness 1

  /** A transfer is asked for `size` items at most and has `room` for so many; it then ends as a get does. */
  datatype Pc =
    | Idle
    | PutLock | PutCheck | PutRefuse | PutWrite | PutTail | PutNotEmpty | PutUnlock
    | GetLock | GetCheck | GetNull | GetHead | GetRead | GetCompare
    | GetLockTail | GetCompareTail | GetSetEmpty | GetUnlockTail | GetUnlock
    | TransferPeek(size: nat, room: Positive) | TransferLock(asked: Positive, room: Positive)
    | TransferCheck(asked: Positive, room: Positive) | TransferNull | TransferCount(asked: Positive, room: Positive)
    | TransferCopy | TransferHead

  /**
  `item` is the item being put, and `ok` what the last put has returned.  `want` is how many items the thread takes,
  and `chunk` those it has read: the first is what it returns, the others go to the queue of its own; none is NULL.
  */
  datatype Thread = Thread(pc: Pc, item: Item, ok: bool, want: nat, chunk: seq<Item>)

  /**
  The queue, its two locks (-1 when free) and the threads.  `puts` and `gets` list the items put and got so
  far, `heads` counts the moves of the head and `completed` the puts that have also reset is_empty; these
  four are for the proof only.
  */
  datatype State = State(
    slots: seq<Item>, head: nat, tail: nat, isEmpty: bool, lock1: int, lock2: int,
    threads: seq<Thread>,
    puts: seq<Item>, gets: seq<Item>, heads: nat, completed: nat)

  datatype Action =
    | StartPut(t: nat, item: Item)
    | StartGet(t: nat)
    | StartTransfer(t: nat, size: nat, room: Positive)
    | Step(t: nat)

  predicate Shape(s: State) {
    |s.slots| >= 1 && s.head < |s.slots| && s.tail < |s.slots|
  }

  predicate Init(s: State) {
    && Shape(s) && s.head == 0 && s.tail == 0 && s.isEmpty && s.lock1 == -1 && s.lock2 == -1
    && s.puts == [] && s.gets == [] && s.heads == 0 && s.completed == 0
    && forall t :: 0 <= t < |s.threads| ==> s.threads[t].pc == Idle
  }

  function Goto(s: State, t: nat, pc: Pc): State
    requires t < |s.threads|
  {
    s.(threads := s.threads[t := s.threads[t].(pc := pc)])
  }

  function Answered(s: State, t: nat, ok: bool): State
    requires t < |s.threads|
  {
    s.(threads := s.threads[t := s.threads[t].(pc := Idle, ok := ok)])
  }

  /** A thread at the start of an operation. */
  function Starting(th: Thread, pc: Pc): Thread {
    th.(pc := pc, want := 0, chunk := [])
  }

  function StepPut(s: State, t: nat): (r: State)
    requires Shape(s) && t < |s.threads|
    ensures Shape(r)
  {
    var newTail := (s.tail + 1) % |s.slots|;
    match s.threads[t].pc
    case PutLock => if s.lock2 == -1 then Goto(s, t, PutCheck).(lock2 := t) else s
    case PutCheck => Goto(s, t, if newTail == s.head then PutRefuse else PutWrite)
    case PutRefuse => Answered(s, t, false).(lock2 := -1)
    case PutWrite => Goto(s, t, PutTail).(slots := s.slots[newTail := s.threads[t].item])
    case PutTail => Goto(s, t, PutNotEmpty).(tail := newTail, puts := s.puts + [s.threads[t].item])
    case PutNotEmpty => Goto(s, t, PutUnlock).(isEmpty := false, completed := s.completed + 1)
    case PutUnlock => Answered(s, t, true).(lock2 := -1)
    case _ => s
  }

  function StepGet(s: State, t: nat): (r: State)
    requires Shape(s) && t < |s.threads|
    ensures Shape(r)
  {
    match s.threads[t].pc
    case GetLock => if s.lock1 == -1 then Goto(s, t, GetCheck).(lock1 := t) else s
    case GetCheck => Goto(s, t, if s.isEmpty then GetNull else GetHead)
    case GetNull => Goto(s, t, Idle).(lock1 := -1)
    case GetHead => Goto(s, t, GetRead).(head := (s.head + 1) % |s.slots|, heads := s.heads + 1)
    case GetRead =>
      s.(threads := s.threads[t := s.threads[t].(pc := GetCompare, want := 1, chunk := [s.slots[s.head]])],
         gets := s.gets + [s.slots[s.head]])
    case GetCompare => Goto(s, t, if s.head == s.tail then GetLockTail else GetUnlock)
    case GetLockTail => if s.lock2 == -1 then Goto(s, t, GetCompareTail).(lock2 := t) else s
    case GetCompareTail => Goto(s, t, if s.head == s.tail then GetSetEmpty else GetUnlockTail)
    case GetSetEmpty => Goto(s, t, GetUnlockTail).(isEmpty := true)
    case GetUnlockTail => Goto(s, t, GetUnlock).(lock2 := -1)
    case GetUnlock => Goto(s, t, Idle).(lock1 := -1)
    case _ => s
  }

  /** How many items there are, from the two indices. */
  function UsedSlots(s: State): int {
    if s.tail >= s.head then s.tail - s.head else |s.slots| - (s.head - s.tail)
  }

  function StepTransfer(s: State, t: nat): (r: State)
    requires Shape(s) && t < |s.threads|
    ensures Shape(r)
  {
    var (th, n) := (s.threads[t], |s.slots|);
    match th.pc
    case TransferPeek(size, room) => Goto(s, t, if s.isEmpty || size == 0 then Idle else TransferLock(size, room))
    case TransferLock(size, room) => if s.lock1 == -1 then Goto(s, t, TransferCheck(size, room)).(lock1 := t) else s
    case TransferCheck(size, room) => Goto(s, t, if s.isEmpty then TransferNull else TransferCount(size, room))
    case TransferNull => Goto(s, t, Idle).(lock1 := -1)
    case TransferCount(size, room) =>
      var want := Min(Min(size, UsedSlots(s)), room);
      s.(threads := s.threads[t := th.(pc := TransferCopy, want := if want >= 0 then want else 0, chunk := [])])
    case TransferCopy =>
      var chunk := th.chunk + [s.slots[(s.head + 1 + |th.chunk|) % n]];
      s.(threads := s.threads[t := th.(pc := if |chunk| < th.want then TransferCopy else TransferHead, chunk := chunk)])
    case TransferHead =>
      Goto(s, t, GetCompare).(
        head := ((s.head + 1) % n + th.want - 1) % n, heads := s.heads + th.want, gets := s.gets + th.chunk)
    case _ => s
  }

  predicate IsTransfer(pc: Pc) {
    || pc.TransferPeek? || pc.TransferLock? || pc.TransferCheck? || pc.TransferNull? || pc.TransferCount?
    || pc.TransferCopy? || pc.TransferHead?
  }

  predicate IsPut(pc: Pc) {
    pc.PutLock? || pc.PutCheck? || pc.PutRefuse? || pc.PutWrite? || pc.PutTail? || pc.PutNotEmpty? || pc.PutUnlock?
  }

  function Next(s: State, a: Action): State
    requires Shape(s)
  {
    if a.t >= |s.threads| then s
    else match a
      case StartPut(t, item) =>
        if s.threads[t].pc.Idle? then s.(threads := s.threads[t := Starting(s.threads[t], PutLock).(item := item)])
        else s
      case StartGet(t) =>
        if s.threads[t].pc.Idle? then s.(threads := s.threads[t := Starting(s.threads[t], GetLock)]) else s
      case StartTransfer(t, size, room) =>
        if s.threads[t].pc.Idle? then s.(threads := s.threads[t := Starting(s.threads[t], TransferPeek(size, room))])
        else s
      case Step(t) =>
        if IsPut(s.threads[t].pc) then StepPut(s, t)
        else if IsTransfer(s.threads[t].pc) then StepTransfer(s, t)
        else StepGet(s, t)
  }

  function Exec(s: State, schedule: seq<Action>): (r: State)
    requires Shape(s)
    ensures Shape(r) && |r.slots| == |s.slots|
    decreases |schedule|
  {
    if schedule == [] then s else Exec(Next(s, schedule[0]), schedule[1..])
  }

  // ---------- the invariant ----------

  predicate HoldsHeadLock(pc: Pc) {
    !IsPut(pc) && !pc.Idle? && !pc.GetLock? && !pc.TransferPeek? && !pc.TransferLock?
  }

  predicate HoldsTailLock(pc: Pc) {
    (IsPut(pc) && !pc.PutLock?) || pc.GetCompareTail? || pc.GetSetEmpty? || pc.GetUnlockTail?
  }

  /** A getter that has found the queue non-empty and has not yet dealt with the item it takes being the last. */
  predicate Taking(pc: Pc) {
    || pc.TransferCount? || pc.TransferCopy? || pc.TransferHead?
    || pc.GetHead? || pc.GetRead? || pc.GetCompare? || pc.GetLockTail? || pc.GetCompareTail? || pc.GetSetEmpty?
  }

  predicate Locks(s: State) {
    && (s.lock1 == -1 || 0 <= s.lock1 < |s.threads|) && (s.lock2 == -1 || 0 <= s.lock2 < |s.threads|)
    && forall t :: 0 <= t < |s.threads| ==>
         && (HoldsHeadLock(s.threads[t].pc) <==> s.lock1 == t)
         && (HoldsTailLock(s.threads[t].pc) <==> s.lock2 == t)
  }

  /** With its items read and the head moved. */
  predicate HasTaken(pc: Pc) {
    || pc.GetCompare? || pc.GetLockTail? || pc.GetCompareTail? || pc.GetSetEmpty? || pc.GetUnlockTail? || pc.GetUnlock?
  }

  /** The program point of the thread inside each end. */
  function Getter(s: State): Pc
    requires Locks(s)
  {
    if s.lock1 == -1 then Idle else s.threads[s.lock1].pc
  }

  function TailHolder(s: State): Pc
    requires Locks(s)
  {
    if s.lock2 == -1 then Idle else s.threads[s.lock2].pc
  }

  /** The indices are the counters modulo the ring, and one slot stays free. */
  predicate Indices(s: State)
    requires Shape(s) && Locks(s)
  {
    && s.head == s.heads % |s.slots| && s.tail == |s.puts| % |s.slots|
    && s.heads <= |s.puts| < s.heads + |s.slots|
    && s.heads == |s.gets| + One(Getter(s).GetRead?)
    && (Getter(s).GetHead? || Getter(s).TransferCount? ==> s.heads < |s.puts|)
    && (Getter(s).TransferCopy? || Getter(s).TransferHead? ==> 1 <= s.threads[s.lock1].want <= |s.puts| - s.heads)
    && (TailHolder(s).PutWrite? || TailHolder(s).PutTail? ==> |s.puts| + 1 < s.heads + |s.slots|)
  }

  /** Where the item put i-th is kept. */
  function SlotOf(s: State, i: nat): (k: nat)
    requires Shape(s)
    ensures k < |s.slots|
  {
    (i + 1) % |s.slots|
  }

  /** Every item put and not yet read is in its slot. */
  predicate Stored(s: State)
    requires Shape(s) && Locks(s)
  {
    && (forall i :: |s.gets| <= i < |s.puts| ==> s.slots[SlotOf(s, i)] == s.puts[i])
    && (TailHolder(s).PutTail? ==> s.slots[SlotOf(s, |s.puts|)] == s.threads[s.lock2].item)
  }

  /** The items got are those put, in order; the thread at the head holds the last of them, or reads the next. */
  predicate Fifo(s: State)
    requires Locks(s)
  {
    && s.gets <= s.puts
    && (HasTaken(Getter(s)) ==> var th := s.threads[s.lock1];
          && 1 <= |th.chunk| == th.want <= |s.gets| && th.chunk == s.gets[|s.gets| - th.want..])
    && (Getter(s).TransferCopy? ==> |s.threads[s.lock1].chunk| < s.threads[s.lock1].want)
    && (Getter(s).TransferHead? ==> |s.threads[s.lock1].chunk| == s.threads[s.lock1].want)
    && (Getter(s).TransferCopy? || Getter(s).TransferHead? ==> s.gets + s.threads[s.lock1].chunk <= s.puts)
  }

  /** is_empty lags behind only while somebody who holds the right lock is about to correct it. */
  predicate Emptiness(s: State)
    requires Locks(s)
  {
    && s.completed + One(TailHolder(s).PutNotEmpty?) == |s.puts|
    && (s.isEmpty ==> s.heads == s.completed && !Taking(Getter(s)))
    && (!s.isEmpty && s.heads == |s.puts| ==> Taking(Getter(s)))
    && (Getter(s).GetSetEmpty? ==> s.heads == |s.puts|)
  }

  predicate Inv(s: State) {
    Shape(s) && Locks(s) && Indices(s) && Stored(s) && Fifo(s) && Emptiness(s)
  }

  lemma InitInv(s: State)
    requires Init(s)
    ensures Inv(s)
  {
    ModSmall(0, |s.slots|);
  }

  /** Within the bounds kept by the counters, comparing indices compares counters. */
  lemma IndexCompare(a: nat, b: nat, n: nat)
    requires n > 0 && a <= b < a + n
    ensures a % n == b % n <==> a == b
  {
    if a < b {
      ModDistinct(a, b, n);
    }
  }

  lemma IndexStep(a: nat, n: nat)
    requires n > 0
    ensures (a % n + 1) % n == (a + 1) % n
  {
    ModShift(a, 1, n);
  }

  /** A put finds the ring full exactly when it holds one item less than it has slots. */
  lemma FullCheck(s: State)
    requires Inv(s)
    ensures (s.tail + 1) % |s.slots| == SlotOf(s, |s.puts|)
    ensures (s.tail + 1) % |s.slots| == s.head <==> |s.puts| + 1 == s.heads + |s.slots|
  {
    var n := |s.slots|;
    IndexStep(|s.puts|, n);
    if |s.puts| + 1 == s.heads + n {
      DivModUnique(s.heads + n, n, s.heads / n + 1, s.heads % n);
    } else {
      IndexCompare(s.heads, |s.puts| + 1, n);
    }
  }

  lemma EmptyCheck(s: State)
    requires Inv(s)
    ensures s.head == s.tail <==> s.heads == |s.puts|
  {
    IndexCompare(s.heads, |s.puts|, |s.slots|);
  }

  // ---------- every step ----------

  /** Thread t alone moves, and takes or releases the locks that go with its program point. */
  predicate Moves(s: State, r: State, t: nat) {
    && |r.threads| == |s.threads| && t < |s.threads|
    && (forall u :: 0 <= u < |s.threads| && u != t ==> r.threads[u] == s.threads[u])
    && var (pc, pc') := (s.threads[t].pc, r.threads[t].pc);
    && (HoldsHeadLock(pc') && !HoldsHeadLock(pc) ==> s.lock1 == -1)
    && (HoldsTailLock(pc') && !HoldsTailLock(pc) ==> s.lock2 == -1)
    && r.lock1 == (if HoldsHeadLock(pc') then t else if HoldsHeadLock(pc) then -1 else s.lock1)
    && r.lock2 == (if HoldsTailLock(pc') then t else if HoldsTailLock(pc) then -1 else s.lock2)
  }

  /** Who is inside each end before and after a move. */
  predicate Handed(s: State, r: State, t: nat)
    requires Locks(s)
  {
    && Locks(r) && |r.threads| == |s.threads| && t < |s.threads|
    && var (pc, pc') := (s.threads[t].pc, r.threads[t].pc);
    && Getter(r) == (if HoldsHeadLock(pc') then pc' else if HoldsHeadLock(pc) then Idle else Getter(s))
    && TailHolder(r) == (if HoldsTailLock(pc') then pc' else if HoldsTailLock(pc) then Idle else TailHolder(s))
    && (HoldsHeadLock(pc) ==> Getter(s) == pc && s.lock1 == t)
    && (HoldsTailLock(pc) ==> TailHolder(s) == pc && s.lock2 == t)
  }

  lemma MovesLocks(s: State, r: State, t: nat)
    requires Locks(s) && Moves(s, r, t)
    ensures Handed(s, r, t)
  {
  }

  lemma PutMoves(s: State, t: nat)
    requires Shape(s) && Locks(s) && t < |s.threads| && IsPut(s.threads[t].pc)
    ensures Moves(s, StepPut(s, t), t)
  {
    match s.threads[t].pc {
      case PutLock =>
      case _ =>
    }
  }

  predicate IsGet(pc: Pc) {
    !IsPut(pc) && !IsTransfer(pc)
  }

  predicate ChangesLocks(pc: Pc) {
    pc.GetLock? || pc.GetNull? || pc.GetLockTail? || pc.GetUnlockTail? || pc.GetUnlock?
  }

  lemma GetLockMoves(s: State, t: nat)
    requires Shape(s) && Locks(s) && t < |s.threads| && ChangesLocks(s.threads[t].pc)
    requires !s.threads[t].pc.GetLockTail? && !s.threads[t].pc.GetUnlockTail?
    ensures Moves(s, StepGet(s, t), t)
  {
  }

  lemma GetTailLockMoves(s: State, t: nat)
    requires Shape(s) && Locks(s) && t < |s.threads| && (s.threads[t].pc.GetLockTail? || s.threads[t].pc.GetUnlockTail?)
    ensures Moves(s, StepGet(s, t), t)
  {
  }

  lemma GetMoves(s: State, t: nat)
    requires Shape(s) && Locks(s) && t < |s.threads| && IsGet(s.threads[t].pc)
    ensures Moves(s, StepGet(s, t), t)
  {
    if s.threads[t].pc.GetLockTail? || s.threads[t].pc.GetUnlockTail? {
      GetTailLockMoves(s, t);
    } else if ChangesLocks(s.threads[t].pc) {
      GetLockMoves(s, t);
    } else {
      GetStays(s, t);
    }
  }

  lemma GetStays(s: State, t: nat)
    requires Shape(s) && Locks(s) && t < |s.threads| && IsGet(s.threads[t].pc) && !ChangesLocks(s.threads[t].pc)
    ensures Moves(s, StepGet(s, t), t)
  {
  }

  lemma GetHanded(s: State, t: nat)
    requires Shape(s) && Locks(s) && t < |s.threads| && IsGet(s.threads[t].pc)
    ensures Handed(s, StepGet(s, t), t)
  {
    GetMoves(s, t);
    MovesLocks(s, StepGet(s, t), t);
  }

  lemma TransferMoves(s: State, t: nat)
    requires Shape(s) && Locks(s) && t < |s.threads| && IsTransfer(s.threads[t].pc)
    ensures Moves(s, StepTransfer(s, t), t)
  {
    if s.threads[t].pc.TransferLock? || s.threads[t].pc.TransferNull? {
      TransferLockMoves(s, t);
    } else {
      TransferStays(s, t);
    }
  }

  lemma TransferLockMoves(s: State, t: nat)
    requires Shape(s) && Locks(s) && t < |s.threads| && (s.threads[t].pc.TransferLock? || s.threads[t].pc.TransferNull?)
    ensures Moves(s, StepTransfer(s, t), t)
  {
  }

  lemma TransferStays(s: State, t: nat)
    requires Shape(s) && Locks(s) && t < |s.threads| && IsTransfer(s.threads[t].pc)
    requires !s.threads[t].pc.TransferLock? && !s.threads[t].pc.TransferNull?
    ensures Moves(s, StepTransfer(s, t), t)
  {
    if s.threads[t].pc.TransferCount? || s.threads[t].pc.TransferCopy? {
      TransferReads(s, t);
    } else {
      TransferGoes(s, t);
    }
  }

  lemma TransferGoes(s: State, t: nat)
    requires Shape(s) && Locks(s) && t < |s.threads|
    requires var pc := s.threads[t].pc; pc.TransferPeek? || pc.TransferCheck? || pc.TransferHead?
    ensures Moves(s, StepTransfer(s, t), t)
  {
  }

  lemma TransferReads(s: State, t: nat)
    requires Shape(s) && Locks(s) && t < |s.threads| && IsTransfer(s.threads[t].pc)
    requires s.threads[t].pc.TransferCount? || s.threads[t].pc.TransferCopy?
    ensures Moves(s, StepTransfer(s, t), t)
  {
  }

  lemma TransferHanded(s: State, t: nat)
    requires Shape(s) && Locks(s) && t < |s.threads| && IsTransfer(s.threads[t].pc)
    ensures Handed(s, StepTransfer(s, t), t)
  {
    TransferMoves(s, t);
    MovesLocks(s, StepTransfer(s, t), t);
  }

  lemma PutHanded(s: State, t: nat)
    requires Shape(s) && Locks(s) && t < |s.threads| && IsPut(s.threads[t].pc)
    ensures Handed(s, StepPut(s, t), t)
  {
    PutMoves(s, t);
    MovesLocks(s, StepPut(s, t), t);
  }

  lemma StartInv(s: State, t: nat, th: Thread)
    requires Inv(s) && t < |s.threads| && s.threads[t].pc.Idle?
    requires th.pc.PutLock? || th.pc.GetLock? || th.pc.TransferPeek?
    ensures Inv(s.(threads := s.threads[t := th]))
  {
    var r := s.(threads := s.threads[t := th]);
    assert Moves(s, r, t);
    MovesLocks(s, r, t);
  }

  lemma PutIndices(s: State, t: nat)
    requires Inv(s) && t < |s.threads| && IsPut(s.threads[t].pc)
    ensures Locks(StepPut(s, t)) && Indices(StepPut(s, t))
  {
    PutHanded(s, t);
    FullCheck(s);
  }

  /** A getter that looks after the case of the last item, with or waiting for the other lock. */
  predicate AtTail(pc: Pc) {
    pc.GetLockTail? || pc.GetCompareTail? || pc.GetSetEmpty? || pc.GetUnlockTail?
  }

  /** Only is_empty can change there. */
  lemma GetTailKeeps(s: State, t: nat)
    requires Inv(s) && t < |s.threads| && AtTail(s.threads[t].pc)
    ensures Locks(StepGet(s, t)) && Indices(StepGet(s, t)) && Stored(StepGet(s, t))
  {
    GetHanded(s, t);
  }

  lemma GetTailFifo(s: State, t: nat)
    requires Inv(s) && t < |s.threads| && AtTail(s.threads[t].pc)
    ensures Locks(StepGet(s, t)) && Fifo(StepGet(s, t))
  {
    GetHanded(s, t);
  }

  lemma GetTailEmptiness(s: State, t: nat)
    requires Inv(s) && t < |s.threads| && AtTail(s.threads[t].pc)
    ensures Locks(StepGet(s, t)) && Emptiness(StepGet(s, t))
  {
    GetHanded(s, t);
    EmptyCheck(s);
  }

  /** A getter at the head end. */
  predicate AtHead(pc: Pc) {
    IsGet(pc) && !AtTail(pc)
  }

  lemma GetIndices(s: State, t: nat)
    requires Inv(s) && t < |s.threads| && AtHead(s.threads[t].pc)
    ensures Locks(StepGet(s, t)) && Indices(StepGet(s, t))
  {
    GetHanded(s, t);
    if s.threads[t].pc.GetHead? {
      IndexStep(s.heads, |s.slots|);
    }
  }

  /** A put never writes a slot that still holds an unread item, nor the one a getter is about to read. */
  lemma WritesFreeSlot(s: State, i: nat)
    requires Inv(s) && TailHolder(s).PutWrite? && |s.gets| <= i < |s.puts|
    ensures SlotOf(s, i) != SlotOf(s, |s.puts|)
  {
    ModDistinct(i + 1, |s.puts| + 1, |s.slots|);
  }

  lemma PutStored(s: State, t: nat)
    requires Inv(s) && t < |s.threads| && IsPut(s.threads[t].pc)
    ensures Locks(StepPut(s, t)) && Stored(StepPut(s, t))
  {
    PutHanded(s, t);
    if s.threads[t].pc.PutWrite? {
      WriteStored(s, t);
    } else {
      FullCheck(s);
    }
  }

  lemma WriteStored(s: State, t: nat)
    requires Inv(s) && t < |s.threads| && s.threads[t].pc.PutWrite? && Handed(s, StepPut(s, t), t)
    ensures Stored(StepPut(s, t))
  {
    FullCheck(s);
    forall i | |s.gets| <= i < |s.puts| ensures SlotOf(s, i) != SlotOf(s, |s.puts|) {
      WritesFreeSlot(s, i);
    }
  }

  lemma GetStored(s: State, t: nat)
    requires Inv(s) && t < |s.threads| && AtHead(s.threads[t].pc)
    ensures Locks(StepGet(s, t)) && Stored(StepGet(s, t))
  {
    GetHanded(s, t);
  }

  /** The item read from the head slot, after the head has moved, is the next one in order. */
  lemma ReadsNextItem(s: State)
    requires Inv(s) && Getter(s).GetRead?
    ensures |s.gets| < |s.puts| && s.slots[s.head] == s.puts[|s.gets|]
  {
  }

  lemma PutFifo(s: State, t: nat)
    requires Inv(s) && t < |s.threads| && IsPut(s.threads[t].pc)
    ensures Locks(StepPut(s, t)) && Fifo(StepPut(s, t))
  {
    PutHanded(s, t);
  }

  lemma GetFifo(s: State, t: nat)
    requires Inv(s) && t < |s.threads| && AtHead(s.threads[t].pc)
    ensures Locks(StepGet(s, t)) && Fifo(StepGet(s, t))
  {
    GetHanded(s, t);
    if s.threads[t].pc.GetRead? {
      ReadFifo(s, t);
    } else {
      NoReadFifo(s, t);
    }
  }

  lemma NoReadFifo(s: State, t: nat)
    requires Shape(s) && Locks(s) && Fifo(s) && t < |s.threads| && AtHead(s.threads[t].pc)
    requires !s.threads[t].pc.GetRead? && Handed(s, StepGet(s, t), t)
    ensures Fifo(StepGet(s, t))
  {
    NoReadSame(s, t);
    FifoKept(s, StepGet(s, t));
  }

  lemma NoReadSame(s: State, t: nat)
    requires Shape(s) && Locks(s) && t < |s.threads| && AtHead(s.threads[t].pc) && !s.threads[t].pc.GetRead?
    requires Handed(s, StepGet(s, t), t)
    ensures var r := StepGet(s, t); r.gets == s.gets && r.puts == s.puts && HandsOn(s, r)
  {
    match s.threads[t].pc {
      case GetLock =>
      case GetUnlock =>
      case _ =>
    }
  }

  /** The one inside the head end is as it was, or just in or out, or further on with the items it has taken. */
  predicate HandsOn(s: State, r: State)
    requires Locks(s) && Locks(r)
  {
    || (r.lock1 == s.lock1 != -1 && r.threads[r.lock1] == s.threads[s.lock1])
    || (r.lock1 == s.lock1 != -1 && HasTaken(Getter(s)) && HasTaken(Getter(r))
        && r.threads[r.lock1].want == s.threads[s.lock1].want && r.threads[r.lock1].chunk == s.threads[s.lock1].chunk)
    || (!HasTaken(Getter(r)) && !Getter(r).TransferCopy? && !Getter(r).TransferHead?)
  }

  lemma FifoKept(s: State, r: State)
    requires Locks(s) && Locks(r) && Fifo(s) && r.gets == s.gets && r.puts == s.puts && HandsOn(s, r)
    ensures Fifo(r)
  {
  }

  lemma ReadFifo(s: State, t: nat)
    requires Inv(s) && t < |s.threads| && s.threads[t].pc.GetRead? && Handed(s, StepGet(s, t), t)
    ensures Fifo(StepGet(s, t))
  {
    ReadsNextItem(s);
    assert s.gets + [s.puts[|s.gets|]] <= s.puts;
  }

  lemma PutEmptiness(s: State, t: nat)
    requires Inv(s) && t < |s.threads| && IsPut(s.threads[t].pc)
    ensures Locks(StepPut(s, t)) && Emptiness(StepPut(s, t))
  {
    PutHanded(s, t);
  }

  lemma GetEmptiness(s: State, t: nat)
    requires Inv(s) && t < |s.threads| && AtHead(s.threads[t].pc)
    ensures Locks(StepGet(s, t)) && Emptiness(StepGet(s, t))
  {
    GetHanded(s, t);
    EmptyCheck(s);
  }

  // ---------- the steps of a transfer ----------

  /** The two indices are so far apart as there are items. */
  lemma UsedIsContents(s: State)
    requires Inv(s)
    ensures UsedSlots(s) == |s.puts| - s.heads
  {
    DistanceOf(s.heads, |s.puts|, |s.slots|, s.head, s.tail);
  }

  lemma DistanceOf(a: nat, b: nat, n: nat, head: nat, tail: nat)
    requires n > 0 && a <= b < a + n && head == a % n && tail == b % n
    ensures (if tail >= head then tail - head else n - (head - tail)) == b - a
  {
    var q := a / n;
    assert a == q * n + head;
    var d := head + (b - a);
    assert b == q * n + d;
    if d < n {
      DivModUnique(b, n, q, d);
    } else {
      assert (q + 1) * n == q * n + n;
      DivModUnique(b, n, q + 1, d - n);
    }
  }

  lemma SlotAfter(heads: nat, head: nat, i: nat, n: nat)
    requires n > 0 && head == heads % n && heads <= i
    ensures (head + 1 + (i - heads)) % n == (i + 1) % n
  {
    ModShift(heads, 1 + (i - heads), n);
    assert heads + (1 + (i - heads)) == i + 1 && head + (1 + (i - heads)) == head + 1 + (i - heads);
  }

  /** Where the head goes. */
  lemma HeadAfter(heads: nat, head: nat, want: nat, n: nat)
    requires n > 0 && head == heads % n && want >= 1
    ensures ((head + 1) % n + want - 1) % n == (heads + want) % n
  {
    ModShift(head + 1, want - 1, n);
    ModShift(heads, want, n);
    assert head + 1 + (want - 1) == head + want;
  }

  lemma TransferIndices(s: State, t: nat)
    requires Inv(s) && t < |s.threads| && IsTransfer(s.threads[t].pc)
    ensures Locks(StepTransfer(s, t)) && Indices(StepTransfer(s, t))
  {
    TransferHanded(s, t);
    match s.threads[t].pc {
      case TransferCount(_, _) =>
        UsedIsContents(s);
        CountIndices(s, t);
      case TransferHead => HeadIndices(s, t);
      case TransferCheck(_, _) => CheckedIndices(s, t);
      case TransferCopy => CopiedIndices(s, t);
      case _ => SameIndices(s, t);
    }
  }

  lemma CountIndices(s: State, t: nat)
    requires Inv(s) && t < |s.threads|
    requires s.threads[t].pc.TransferCount? && Handed(s, StepTransfer(s, t), t)
    requires UsedSlots(s) == |s.puts| - s.heads
    ensures Indices(StepTransfer(s, t))
  {
  }

  lemma HeadIndices(s: State, t: nat)
    requires Shape(s) && Locks(s) && Indices(s) && Fifo(s) && t < |s.threads|
    requires s.threads[t].pc.TransferHead? && Handed(s, StepTransfer(s, t), t)
    ensures Indices(StepTransfer(s, t))
  {
    HeadMoves(s, t);
    MovedIndices(s, StepTransfer(s, t));
  }

  lemma SameIndices(s: State, t: nat)
    requires Shape(s) && Locks(s) && Indices(s) && t < |s.threads| && Handed(s, StepTransfer(s, t), t)
    requires s.threads[t].pc.TransferPeek? || s.threads[t].pc.TransferLock? || s.threads[t].pc.TransferNull?
    ensures Indices(StepTransfer(s, t))
  {
    IndicesKept(s, StepTransfer(s, t));
  }

  /** Points at which the head end says nothing of the counters. */
  predicate Plain(pc: Pc) {
    !pc.GetRead? && !pc.GetHead? && !pc.TransferCount? && !pc.TransferCopy? && !pc.TransferHead?
  }

  lemma IndicesKept(s: State, r: State)
    requires Shape(s) && Shape(r) && Locks(s) && Locks(r) && Indices(s)
    requires r.slots == s.slots && r.head == s.head && r.tail == s.tail
    requires r.heads == s.heads && r.puts == s.puts && r.gets == s.gets && TailHolder(r) == TailHolder(s)
    requires || (r.lock1 == s.lock1 && (s.lock1 != -1 ==> r.threads[s.lock1] == s.threads[s.lock1]))
             || (Plain(Getter(r)) && !Getter(s).GetRead?)
    ensures Indices(r)
  {
  }

  /** What is not empty has items. */
  lemma CheckedIndices(s: State, t: nat)
    requires Inv(s) && t < |s.threads| && s.threads[t].pc.TransferCheck? && Handed(s, StepTransfer(s, t), t)
    ensures Indices(StepTransfer(s, t))
  {
  }

  lemma CopiedIndices(s: State, t: nat)
    requires Shape(s) && Locks(s) && Indices(s) && t < |s.threads|
    requires s.threads[t].pc.TransferCopy? && Handed(s, StepTransfer(s, t), t)
    ensures Indices(StepTransfer(s, t))
  {
  }

  lemma HeadMoves(s: State, t: nat)
    requires Shape(s) && t < |s.threads| && s.threads[t].pc.TransferHead? && s.threads[t].want >= 1
    requires s.head == s.heads % |s.slots|
    ensures var r := StepTransfer(s, t); r.head == r.heads % |r.slots|
  {
    HeadAfter(s.heads, s.head, s.threads[t].want, |s.slots|);
  }

  /** A head moved over items that are there. */
  lemma MovedIndices(s: State, r: State)
    requires Shape(s) && Shape(r) && Locks(s) && Locks(r) && Indices(s) && r.head == r.heads % |r.slots|
    requires r.slots == s.slots && r.tail == s.tail && r.puts == s.puts && TailHolder(r) == TailHolder(s)
    requires s.heads <= r.heads == |r.gets| <= |r.puts| && HasTaken(Getter(r))
    ensures Indices(r)
  {
  }

  lemma TransferStored(s: State, t: nat)
    requires Inv(s) && t < |s.threads| && IsTransfer(s.threads[t].pc)
    ensures Locks(StepTransfer(s, t)) && Stored(StepTransfer(s, t))
  {
    TransferHanded(s, t);
  }

  /** The slot read next holds the item next in order, whatever putters have added since the count. */
  lemma CopiesNextItem(s: State)
    requires Inv(s) && Getter(s).TransferCopy?
    ensures var th := s.threads[s.lock1]; var i := |s.gets| + |th.chunk|;
      i < |s.puts| && s.slots[(s.head + 1 + |th.chunk|) % |s.slots|] == s.puts[i]
  {
    var i := |s.gets| + |s.threads[s.lock1].chunk|;
    SlotAfter(|s.gets|, s.head, i, |s.slots|);
    assert s.slots[SlotOf(s, i)] == s.puts[i];
  }

  lemma TransferFifo(s: State, t: nat)
    requires Inv(s) && t < |s.threads| && IsTransfer(s.threads[t].pc)
    ensures Locks(StepTransfer(s, t)) && Fifo(StepTransfer(s, t))
  {
    TransferHanded(s, t);
    match s.threads[t].pc {
      case TransferCount(_, _) => CountFifo(s, t);
      case TransferCopy => CopyFifo(s, t);
      case TransferHead => HeadFifo(s, t);
      case _ => BeforeCountFifo(s, t);
    }
  }

  lemma BeforeCountFifo(s: State, t: nat)
    requires Inv(s) && t < |s.threads| && Handed(s, StepTransfer(s, t), t)
    requires var pc := s.threads[t].pc; pc.TransferPeek? || pc.TransferLock? || pc.TransferCheck? || pc.TransferNull?
    ensures Fifo(StepTransfer(s, t))
  {
  }

  lemma CountFifo(s: State, t: nat)
    requires Inv(s) && t < |s.threads| && s.threads[t].pc.TransferCount? && Handed(s, StepTransfer(s, t), t)
    ensures Fifo(StepTransfer(s, t))
  {
    UsedIsContents(s);
    assert s.gets + [] == s.gets;
  }

  lemma CopyFifo(s: State, t: nat)
    requires Inv(s) && t < |s.threads| && s.threads[t].pc.TransferCopy? && Handed(s, StepTransfer(s, t), t)
    ensures Fifo(StepTransfer(s, t))
  {
    CopiesNextItem(s);
    CopiedFifo(s, t);
  }

  lemma CopiedFifo(s: State, t: nat)
    requires Shape(s) && Locks(s) && Fifo(s) && t < |s.threads| && s.threads[t].pc.TransferCopy?
    requires Handed(s, StepTransfer(s, t), t)
    requires var th := s.threads[t]; var i := |s.gets| + |th.chunk|;
      i < |s.puts| && s.slots[(s.head + 1 + |th.chunk|) % |s.slots|] == s.puts[i]
    ensures Fifo(StepTransfer(s, t))
  {
    var th, i := s.threads[t], |s.gets| + |s.threads[t].chunk|;
    assert s.gets + (th.chunk + [s.puts[i]]) == (s.gets + th.chunk) + [s.puts[i]] <= s.puts;
  }

  lemma HeadFifo(s: State, t: nat)
    requires Inv(s) && t < |s.threads| && s.threads[t].pc.TransferHead? && Handed(s, StepTransfer(s, t), t)
    ensures Fifo(StepTransfer(s, t))
  {
    var th, r := s.threads[t], StepTransfer(s, t);
    assert r.gets[|r.gets| - th.want..] == th.chunk;
  }

  lemma TransferEmptiness(s: State, t: nat)
    requires Inv(s) && t < |s.threads| && IsTransfer(s.threads[t].pc)
    ensures Locks(StepTransfer(s, t)) && Emptiness(StepTransfer(s, t))
  {
    TransferHanded(s, t);
  }

  lemma NextInv(s: State, a: Action)
    requires Inv(s)
    ensures Inv(Next(s, a))
  {
    if a.t < |s.threads| {
      if !a.Step? {
        if s.threads[a.t].pc.Idle? { StartInv(s, a.t, Next(s, a).threads[a.t]); }
      } else if IsPut(s.threads[a.t].pc) {
        PutIndices(s, a.t);
        PutStored(s, a.t);
        PutFifo(s, a.t);
        PutEmptiness(s, a.t);
      } else if IsTransfer(s.threads[a.t].pc) {
        TransferIndices(s, a.t);
        TransferStored(s, a.t);
        TransferFifo(s, a.t);
        TransferEmptiness(s, a.t);
      } else if AtTail(s.threads[a.t].pc) {
        GetTailKeeps(s, a.t);
        GetTailFifo(s, a.t);
        GetTailEmptiness(s, a.t);
      } else {
        GetIndices(s, a.t);
        GetStored(s, a.t);
        GetFifo(s, a.t);
        GetEmptiness(s, a.t);
      }
    }
  }

  lemma {:induction false} ExecInv(s: State, schedule: seq<Action>)
    requires Inv(s)
    ensures Inv(Exec(s, schedule))
    decreases |schedule|
  {
    if schedule == [] {
    } else {
      NextInv(s, schedule[0]);
      ExecInv(Next(s, schedule[0]), schedule[1..]);
    }
  }

  // ---------- main results ----------

  /** In every run the items come out in exactly the order they went in, none twice and none skipped. */
  lemma FirstInFirstOut(s: State, schedule: seq<Action>)
    requires Init(s)
    ensures Exec(s, schedule).gets <= Exec(s, schedule).puts
  {
    InitInv(s);
    ExecInv(s, schedule);
  }

  /**
  What a getter returns is the item put next in order, even though it moves the head before it reads the slot; and what
  a transfer returns and moves are the next items in order, even though putters go on meanwhile.
  */
  lemma ReturnsItsItem(s: State, schedule: seq<Action>, t: nat)
    requires Init(s)
    ensures var r := Exec(s, schedule);
      t < |r.threads| && r.threads[t].pc.GetUnlock? ==>
        var (th, n) := (r.threads[t], |r.gets|);
        1 <= th.want <= n <= |r.puts| && th.chunk == r.gets[n - th.want..] == r.puts[n - th.want..n]
  {
    InitInv(s);
    ExecInv(s, schedule);
  }

  /** A transfer takes as many items as it is asked for, as there are when it counts them, and as fit. */
  lemma TransfersAllItCan(s: State, schedule: seq<Action>, t: nat)
    requires Init(s)
    ensures var r := Exec(s, schedule);
      t < |r.threads| && r.threads[t].pc.TransferCount? ==>
        var pc := r.threads[t].pc;
        1 <= StepTransfer(r, t).threads[t].want == Min(Min(pc.asked, |r.puts| - |r.gets|), pc.room)
  {
    InitInv(s);
    ExecInv(s, schedule);
    UsedIsContents(Exec(s, schedule));
  }

  /** Does thread t find the queue empty now? */
  predicate FindsEmpty(s: State, t: nat)
    requires Shape(s) && t < |s.threads|
  {
    var pc := s.threads[t].pc;
    || (pc.GetCheck? && StepGet(s, t).threads[t].pc.GetNull?)
    || (pc.TransferPeek? && pc.size > 0 && StepTransfer(s, t).threads[t].pc.Idle?)
    || (pc.TransferCheck? && StepTransfer(s, t).threads[t].pc.TransferNull?)
  }

  /** A get or a transfer finds the queue empty only when every completed put has been consumed. */
  lemma NullOnlyWhenDrained(s: State, schedule: seq<Action>, t: nat)
    requires Init(s)
    ensures var r := Exec(s, schedule);
      t < |r.threads| && FindsEmpty(r, t) ==> |r.gets| == r.completed
  {
    InitInv(s);
    ExecInv(s, schedule);
  }

  /** A put is refused exactly when all slots but one are taken. */
  lemma RefusedIffFull(s: State, schedule: seq<Action>, t: nat)
    requires Init(s)
    ensures var r := Exec(s, schedule);
      t < |r.threads| && r.threads[t].pc.PutCheck? ==>
        (StepPut(r, t).threads[t].pc.PutRefuse? <==> |r.puts| - r.heads == |r.slots| - 1)
  {
    InitInv(s);
    ExecInv(s, schedule);
    var r := Exec(s, schedule);
    if t < |r.threads| && r.threads[t].pc.PutCheck? { PutOutcome(r, t); }
  }

  lemma PutOutcome(s: State, t: nat)
    requires Inv(s) && t < |s.threads| && s.threads[t].pc.PutCheck?
    ensures StepPut(s, t).threads[t].pc.PutRefuse? <==> |s.puts| - s.heads == |s.slots| - 1
  {
    FullCheck(s);
  }

  /** With nothing in flight, the items put are the items got followed by the slots from head to tail. */
  lemma QuietContents(s: State, schedule: seq<Action>, i: nat)
    requires Init(s)
    ensures var r := Exec(s, schedule);
      r.lock1 == -1 && r.lock2 == -1 ==>
        && (r.isEmpty <==> |r.gets| == |r.puts|)
        && (|r.gets| <= i < |r.puts| ==> r.slots[(r.head + 1 + (i - |r.gets|)) % |r.slots|] == r.puts[i])
  {
    InitInv(s);
    ExecInv(s, schedule);
    var r := Exec(s, schedule);
    if r.lock1 == -1 && |r.gets| <= i < |r.puts| {
      QuietSlot(r, i);
    }
  }

  lemma QuietSlot(s: State, i: nat)
    requires Inv(s) && s.lock1 == -1 && |s.gets| <= i < |s.puts|
    ensures s.slots[(s.head + 1 + (i - |s.gets|)) % |s.slots|] == s.puts[i]
  {
    assert s.heads == |s.gets| && s.slots[SlotOf(s, i)] == s.puts[i];
    SlotAfter(|s.gets|, s.head, i, |s.slots|);
  }

  /** Is thread t about to act on a lock somebody holds? */
  predicate Blocked(s: State, t: nat)
    requires t < |s.threads|
  {
    || (s.threads[t].pc.PutLock? && s.lock2 != -1)
    || ((s.threads[t].pc.GetLock? || s.threads[t].pc.TransferLock?) && s.lock1 != -1)
    || (s.threads[t].pc.GetLockTail? && s.lock2 != -1)
  }

  /** No deadlock: while any operation is in flight, some operation can step. */
  lemma NoDeadlock(s: State, schedule: seq<Action>, t: nat) returns (u: nat)
    requires Init(s) && t < |Exec(s, schedule).threads| && !Exec(s, schedule).threads[t].pc.Idle?
    ensures var r := Exec(s, schedule);
      u < |r.threads| && !r.threads[u].pc.Idle? && !Blocked(r, u)
  {
    InitInv(s);
    ExecInv(s, schedule);
    var r := Exec(s, schedule);
    u := t;
    if Blocked(r, u) && (r.threads[u].pc.GetLock? || r.threads[u].pc.TransferLock?) {
      u := r.lock1;
    }
    if Blocked(r, u) {
      u := r.lock2;
    }
  }
}
