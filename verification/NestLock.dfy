/**
The nestable lock, built from two plain locks: `wait` is held by the owner for as long as it owns, `lock` guards
count and thread_id.  The first test of a lock call reads both without it.  Every access and every operation on
a plain lock is one step; any number of threads mix lock, test and unlock, and only owners unlock.
*/
module NestLock {

  datatype Pc =
    | Idle
    // nest_lock
    | ReadCount | ReadOwner | LockWait | LockInner(nest: bool)
    | CheckCount | RetryTest | RetryOwner | CheckOwner | Increment | RetryUnlock | SetOwner | SetCount | Unlock
    // test_nest_lock
    | TestLock | TestCount | TestOwner | TestIncrement | TestWait
    | TestSetOwner | TestSetCount | TestFail | TestUnlock | TestReturn
    // nest_unlock
    | FreeLock | FreeCheck | FreeDecrement | FreeTest | FreeWait | FreeUnlock

  /**
  `answer` is what the thread's last test has returned.  `depth` is how many of its lock and test calls the thread
  still has to unlock; it is for the proof only.
  */
  datatype Thread = Thread(pc: Pc, depth: nat, answer: int)

  /** The two plain locks hold a thread number, or -1 when free; `owner` is thread_id, never reset. */
  datatype State = State(wait: int, lock: int, count: int, owner: int, threads: seq<Thread>)

  datatype Action = CallLock(t: nat) | CallTest(t: nat) | CallUnlock(t: nat) | Step(t: nat)

  /** thread_id starts out as garbage. */
  predicate Init(s: State) {
    && s.wait == -1 && s.lock == -1 && s.count == 0
    && forall t :: 0 <= t < |s.threads| ==> s.threads[t].pc.Idle? && s.threads[t].depth == 0
  }

  function Goto(s: State, t: nat, pc: Pc): State
    requires t < |s.threads|
  {
    s.(threads := s.threads[t := s.threads[t].(pc := pc)])
  }

  /** Thread t goes on with one more level of nesting. */
  function Deeper(s: State, t: nat, pc: Pc): State
    requires t < |s.threads|
  {
    s.(threads := s.threads[t := s.threads[t].(pc := pc, depth := s.threads[t].depth + 1)])
  }

  function Answered(s: State, t: nat, answer: int): State
    requires t < |s.threads|
  {
    s.(threads := s.threads[t := s.threads[t].(pc := Idle, answer := answer)])
  }

  function StepLock(s: State, t: nat): State
    requires t < |s.threads|
  {
    match s.threads[t].pc
    case ReadCount => Goto(s, t, if s.count > 0 then ReadOwner else LockWait)
    case ReadOwner => Goto(s, t, if s.owner == t then LockInner(true) else LockWait)
    case LockWait => if s.wait == -1 then Goto(s, t, LockInner(false)).(wait := t) else s
    case LockInner(nest) => if s.lock == -1 then Goto(s, t, if nest then CheckCount else SetOwner).(lock := t) else s
    case CheckCount => Goto(s, t, if s.count == 0 then RetryTest else CheckOwner)
    case RetryTest => if s.wait == -1 then Goto(s, t, RetryOwner).(wait := t) else Goto(s, t, RetryUnlock)
    case RetryOwner => Goto(s, t, Increment).(owner := t)
    case CheckOwner => Goto(s, t, if s.owner != t then RetryUnlock else Increment)
    case Increment => Deeper(s, t, Unlock).(count := s.count + 1)
    case RetryUnlock => Goto(s, t, LockWait).(lock := -1)
    case SetOwner => Goto(s, t, SetCount).(owner := t)
    case SetCount => Deeper(s, t, Unlock).(count := 1)
    case Unlock => Goto(s, t, Idle).(lock := -1)
    case _ => s
  }

  function StepTest(s: State, t: nat): State
    requires t < |s.threads|
  {
    match s.threads[t].pc
    case TestLock => if s.lock == -1 then Goto(s, t, TestCount).(lock := t) else s
    case TestCount => Goto(s, t, if s.count > 0 then TestOwner else TestWait)
    case TestOwner => Goto(s, t, if s.owner == t then TestIncrement else TestFail)
    case TestIncrement => Deeper(s, t, TestUnlock).(count := s.count + 1)
    case TestWait => if s.wait == -1 then Goto(s, t, TestSetOwner).(wait := t) else Goto(s, t, TestFail)
    case TestSetOwner => Goto(s, t, TestSetCount).(owner := t)
    case TestSetCount => Deeper(s, t, TestUnlock).(count := 1)
    case TestFail => Answered(s, t, 0).(lock := -1)
    case TestUnlock => Goto(s, t, TestReturn).(lock := -1)
    case TestReturn => Answered(s, t, s.count)
    case _ => s
  }

  function StepFree(s: State, t: nat): State
    requires t < |s.threads|
  {
    var d := s.threads[t].depth;
    match s.threads[t].pc
    case FreeLock => if s.lock == -1 then Goto(s, t, FreeCheck).(lock := t) else s
    case FreeCheck => Goto(s, t, if s.count > 0 then FreeDecrement else FreeUnlock)
    case FreeDecrement =>
      s.(count := s.count - 1,
         threads := s.threads[t := s.threads[t].(pc := FreeTest, depth := if d > 0 then d - 1 else 0)])
    case FreeTest => Goto(s, t, if s.count == 0 then FreeWait else FreeUnlock)
    case FreeWait => Goto(s, t, FreeUnlock).(wait := -1)
    case FreeUnlock => Goto(s, t, Idle).(lock := -1)
    case _ => s
  }

  predicate IsTest(pc: Pc) {
    || pc.TestLock? || pc.TestCount? || pc.TestOwner? || pc.TestIncrement? || pc.TestWait?
    || pc.TestSetOwner? || pc.TestSetCount? || pc.TestFail? || pc.TestUnlock? || pc.TestReturn?
  }

  predicate IsFree(pc: Pc) {
    pc.FreeLock? || pc.FreeCheck? || pc.FreeDecrement? || pc.FreeTest? || pc.FreeWait? || pc.FreeUnlock?
  }

  function StepThread(s: State, t: nat): State
    requires t < |s.threads|
  {
    if IsTest(s.threads[t].pc) then StepTest(s, t)
    else if IsFree(s.threads[t].pc) then StepFree(s, t)
    else StepLock(s, t)
  }

  function Next(s: State, a: Action): State {
    if a.t >= |s.threads| then s
    else
      var th := s.threads[a.t];
      match a
      case CallLock(t) => if th.pc.Idle? then Goto(s, t, ReadCount) else s
      case CallTest(t) => if th.pc.Idle? then Goto(s, t, TestLock) else s
      case CallUnlock(t) => if th.pc.Idle? && th.depth > 0 then Goto(s, t, FreeLock) else s
      case Step(t) => StepThread(s, t)
  }

  function Exec(s: State, schedule: seq<Action>): State
    decreases |schedule|
  {
    if schedule == [] then s else Exec(Next(s, schedule[0]), schedule[1..])
  }

  // ---------- the invariant ----------

  predicate HoldsLock(pc: Pc) {
    || pc.CheckCount? || pc.CheckOwner? || pc.Increment? || pc.SetOwner? || pc.SetCount? || pc.Unlock?
    || pc.RetryTest? || pc.RetryOwner? || pc.RetryUnlock?
    || (IsTest(pc) && !pc.TestLock? && !pc.TestReturn?)
    || (IsFree(pc) && !pc.FreeLock?)
  }

  /** Holding `wait` although the nesting depth is zero: on the way in, or on the way out. */
  predicate Passing(pc: Pc) {
    || pc == LockInner(false) || pc.SetOwner? || pc.SetCount? || pc.TestSetOwner? || pc.TestSetCount?
    || pc.FreeTest? || pc.FreeWait?
  }

  /** The branches that start over. */
  predicate Retrying(pc: Pc) {
    pc.RetryTest? || pc.RetryOwner? || pc.RetryUnlock?
  }

  predicate HoldsWait(th: Thread) {
    th.depth > 0 || Passing(th.pc)
  }

  predicate ThreadInv(s: State, t: nat)
    requires t < |s.threads|
  {
    var (pc, depth) := (s.threads[t].pc, s.threads[t].depth);
    && (HoldsLock(pc) <==> s.lock == t)
    && (HoldsWait(s.threads[t]) <==> s.wait == t)
    && (s.wait == t ==> s.count == depth)
    && (depth > 0 || pc.SetCount? || pc.TestSetCount? ==> s.owner == t)
    && ((pc.ReadOwner? || pc.TestOwner?) && s.owner == t ==> depth > 0)
    && (pc.TestOwner? ==> s.count > 0)
    && (pc == LockInner(true) || pc.CheckCount? || pc.CheckOwner? || pc.Increment? || pc.Unlock? ==> depth > 0)
    && (pc.TestIncrement? || pc.TestUnlock? || pc.TestReturn? || pc.FreeLock? || pc.FreeCheck? || pc.FreeDecrement?
        ==> depth > 0)
    && (pc.TestWait? || pc.LockWait? ==> depth == 0)
    && (pc.FreeWait? || pc.SetOwner? || pc.SetCount? || pc.TestSetOwner? || pc.TestSetCount? || pc == LockInner(false)
        ==> depth == 0)
    && !Retrying(pc)
  }

  predicate Inv(s: State) {
    && (s.wait == -1 || 0 <= s.wait < |s.threads|) && (s.lock == -1 || 0 <= s.lock < |s.threads|)
    && (s.wait == -1 ==> s.count == 0)
    && forall t :: 0 <= t < |s.threads| ==> ThreadInv(s, t)
  }

  lemma InitInv(s: State)
    requires Init(s)
    ensures Inv(s)
  {
  }

  /** A positive count is the depth of the one thread that owns the lock. */
  lemma PositiveCount(s: State)
    requires Inv(s) && s.count > 0
    ensures 0 <= s.wait < |s.threads| && s.owner == s.wait && s.count == s.threads[s.wait].depth
  {
    assert ThreadInv(s, s.wait);
  }

  /** A step of t: what t itself and everybody else keep. */
  predicate StepOk(s: State, r: State, t: nat) {
    && |r.threads| == |s.threads| && t < |s.threads|
    && (forall u :: 0 <= u < |s.threads| && u != t ==> r.threads[u] == s.threads[u])
    && (r.wait == s.wait || (s.wait == -1 && r.wait == t) || (s.wait == t && r.wait == -1))
    && (r.lock == s.lock || (s.lock == -1 && r.lock == t) || (s.lock == t && r.lock == -1))
    && (r.count == s.count || (s.wait == t && s.lock == t))
    && (r.owner == s.owner || (r.owner == t && s.wait == t))
  }

  lemma StepOkInv(s: State, r: State, t: nat)
    requires Inv(s) && StepOk(s, r, t) && ThreadInv(r, t) && (r.wait == -1 ==> r.count == 0)
    ensures Inv(r) && |r.threads| == |s.threads|
  {
    forall u | 0 <= u < |r.threads| ensures ThreadInv(r, u) {
      assert ThreadInv(s, u);
    }
  }

  lemma LockStep(s: State, t: nat)
    requires Inv(s) && t < |s.threads| && !IsTest(s.threads[t].pc) && !IsFree(s.threads[t].pc)
    ensures Inv(StepLock(s, t)) && |StepLock(s, t).threads| == |s.threads|
  {
    LockStepOk(s, t);
    LockThread(s, t);
    StepOkInv(s, StepLock(s, t), t);
  }

  lemma LockStepOk(s: State, t: nat)
    requires Inv(s) && t < |s.threads| && !IsTest(s.threads[t].pc) && !IsFree(s.threads[t].pc)
    ensures StepOk(s, StepLock(s, t), t)
  {
    assert ThreadInv(s, t);
  }

  lemma LockThread(s: State, t: nat)
    requires Inv(s) && t < |s.threads| && !IsTest(s.threads[t].pc) && !IsFree(s.threads[t].pc)
    ensures var r := StepLock(s, t); |r.threads| == |s.threads| && ThreadInv(r, t) && (r.wait == -1 ==> r.count == 0)
  {
    assert ThreadInv(s, t);
    if s.count > 0 { PositiveCount(s); }
  }

  lemma TestStep(s: State, t: nat)
    requires Inv(s) && t < |s.threads| && IsTest(s.threads[t].pc)
    ensures Inv(StepTest(s, t)) && |StepTest(s, t).threads| == |s.threads|
  {
    TestStepOk(s, t);
    TestThread(s, t);
    StepOkInv(s, StepTest(s, t), t);
  }

  lemma TestStepOk(s: State, t: nat)
    requires Inv(s) && t < |s.threads| && IsTest(s.threads[t].pc)
    ensures StepOk(s, StepTest(s, t), t)
  {
    assert ThreadInv(s, t);
    if s.count > 0 { PositiveCount(s); }
  }

  lemma TestThread(s: State, t: nat)
    requires Inv(s) && t < |s.threads| && IsTest(s.threads[t].pc)
    ensures var r := StepTest(s, t); |r.threads| == |s.threads| && ThreadInv(r, t) && (r.wait == -1 ==> r.count == 0)
  {
    assert ThreadInv(s, t);
    if s.count > 0 { PositiveCount(s); }
  }

  lemma FreeStep(s: State, t: nat)
    requires Inv(s) && t < |s.threads| && IsFree(s.threads[t].pc)
    ensures Inv(StepFree(s, t)) && |StepFree(s, t).threads| == |s.threads|
  {
    assert ThreadInv(s, t);
    FreeStepOk(s, t);
    StepOkInv(s, StepFree(s, t), t);
  }

  lemma FreeStepOk(s: State, t: nat)
    requires Inv(s) && t < |s.threads| && IsFree(s.threads[t].pc)
    ensures StepOk(s, StepFree(s, t), t)
  {
    assert ThreadInv(s, t);
  }

  lemma CallStep(s: State, t: nat, pc: Pc)
    requires Inv(s) && t < |s.threads| && s.threads[t].pc.Idle?
    requires pc.ReadCount? || pc.TestLock? || (pc.FreeLock? && s.threads[t].depth > 0)
    ensures Inv(Goto(s, t, pc)) && |Goto(s, t, pc).threads| == |s.threads|
  {
    assert ThreadInv(s, t);
    StepOkInv(s, Goto(s, t, pc), t);
  }

  lemma NextInv(s: State, a: Action)
    requires Inv(s)
    ensures Inv(Next(s, a)) && |Next(s, a).threads| == |s.threads|
  {
    if a.t < |s.threads| {
      match a {
        case CallLock(t) => if s.threads[t].pc.Idle? { CallStep(s, t, ReadCount); }
        case CallTest(t) => if s.threads[t].pc.Idle? { CallStep(s, t, TestLock); }
        case CallUnlock(t) => if s.threads[t].pc.Idle? && s.threads[t].depth > 0 { CallStep(s, t, FreeLock); }
        case Step(t) => ThreadStep(s, t);
      }
    }
  }

  lemma ThreadStep(s: State, t: nat)
    requires Inv(s) && t < |s.threads|
    ensures Inv(StepThread(s, t)) && |StepThread(s, t).threads| == |s.threads|
  {
    if IsTest(s.threads[t].pc) {
      TestStep(s, t);
    } else if IsFree(s.threads[t].pc) {
      FreeStep(s, t);
    } else {
      LockStep(s, t);
    }
  }

  lemma {:induction false} ExecInv(s: State, schedule: seq<Action>)
    requires Inv(s)
    ensures Inv(Exec(s, schedule)) && |Exec(s, schedule).threads| == |s.threads|
    decreases |schedule|
  {
    if schedule == [] {
    } else {
      var s1 := Next(s, schedule[0]);
      assert Inv(s1) && |s1.threads| == |s.threads| by { NextInv(s, schedule[0]); }
      ExecInv(s1, schedule[1..]);
    }
  }

  // ---------- main results ----------

  /** Mutual exclusion (section 3.3 of the OpenMP API 3.0): in every run at most one thread owns the lock. */
  lemma AtMostOneOwner(s: State, schedule: seq<Action>, t: nat, u: nat)
    requires Init(s) && t < |s.threads| && u < |s.threads|
    ensures var r := Exec(s, schedule);
      |r.threads| == |s.threads| && (r.threads[t].depth > 0 && r.threads[u].depth > 0 ==> t == u)
  {
    InitInv(s);
    ExecInv(s, schedule);
    assert ThreadInv(Exec(s, schedule), t) && ThreadInv(Exec(s, schedule), u);
  }

  /** The count is the owner's nesting depth, and a test that succeeds returns it. */
  lemma CountIsDepth(s: State, schedule: seq<Action>, t: nat)
    requires Init(s) && t < |s.threads|
    ensures var r := Exec(s, schedule);
      && |r.threads| == |s.threads|
      && (r.threads[t].depth > 0 ==> r.count == r.threads[t].depth && r.owner == t)
      && (r.threads[t].pc.TestReturn? ==> r.count == r.threads[t].depth > 0)
      && (r.count > 0 ==> exists u :: 0 <= u < |r.threads| && r.threads[u].depth == r.count)
  {
    InitInv(s);
    ExecInv(s, schedule);
    var r := Exec(s, schedule);
    assert ThreadInv(r, t);
    if r.count > 0 { PositiveCount(r); }
  }

  /** Whoever has come in through `wait` finds count == 0, as the comment in the code asserts. */
  lemma CountIsZeroInside(s: State, schedule: seq<Action>, t: nat)
    requires Init(s) && t < |s.threads|
    ensures var r := Exec(s, schedule);
      |r.threads| == |s.threads| && (r.threads[t].pc.SetOwner? || r.threads[t].pc.SetCount? ==> r.count == 0)
  {
    InitInv(s);
    ExecInv(s, schedule);
    assert ThreadInv(Exec(s, schedule), t);
  }

  /** In spite of the unlocked first read no thread ever starts over. */
  lemma NeverRetries(s: State, schedule: seq<Action>, t: nat)
    requires Init(s) && t < |s.threads|
    ensures |Exec(s, schedule).threads| == |s.threads| && !Retrying(Exec(s, schedule).threads[t].pc)
  {
    InitInv(s);
    ExecInv(s, schedule);
    assert ThreadInv(Exec(s, schedule), t);
  }

  /** A test fails only while another thread owns the lock or is just passing through it. */
  lemma TestFailsOnlyWhenHeld(s: State, schedule: seq<Action>, t: nat)
    requires Init(s) && t < |s.threads|
    ensures var r := Exec(s, schedule);
      && |r.threads| == |s.threads|
      && (IsTest(r.threads[t].pc) && StepTest(r, t).threads[t].pc.TestFail? && !r.threads[t].pc.TestFail? ==>
            0 <= r.wait < |r.threads| && r.wait != t && HoldsWait(r.threads[r.wait]))
  {
    InitInv(s);
    ExecInv(s, schedule);
    var r := Exec(s, schedule);
    assert ThreadInv(r, t);
    if r.count > 0 { PositiveCount(r); }
    if r.wait != -1 { assert ThreadInv(r, r.wait); }
  }

  predicate Blocked(s: State, t: nat)
    requires t < |s.threads|
  {
    || (s.threads[t].pc.LockWait? && s.wait != -1)
    || ((s.threads[t].pc.LockInner? || s.threads[t].pc.TestLock? || s.threads[t].pc.FreeLock?) && s.lock != -1)
  }

  /** No deadlock: a call in progress can step, or some other one can, or the owner is outside any call. */
  lemma NoDeadlock(s: State, schedule: seq<Action>, t: nat) returns (u: nat)
    requires Init(s) && t < |Exec(s, schedule).threads| && !Exec(s, schedule).threads[t].pc.Idle?
    ensures var r := Exec(s, schedule);
      u < |r.threads| && ((!r.threads[u].pc.Idle? && !Blocked(r, u))
          || (r.threads[u].pc.Idle? && r.threads[u].depth > 0))
  {
    InitInv(s);
    ExecInv(s, schedule);
    var r := Exec(s, schedule);
    u := t;
    assert ThreadInv(r, t);
    if Blocked(r, u) && r.threads[u].pc.LockWait? {
      u := r.wait;
      assert ThreadInv(r, u);
    }
    if Blocked(r, u) && r.lock != -1 {
      u := r.lock;
      assert ThreadInv(r, u);
    }
  }

  // ---------- what a call does ----------

  /** The schedule has no further call by thread t. */
  predicate NoCall(schedule: seq<Action>, t: nat) {
    forall a :: a in schedule && a.t == t ==> a.Step?
  }

  /** What a thread in the middle of a call will be when the call is over. */
  predicate Ends(th: Thread, r: Thread) {
    var (d, pc) := (th.depth, th.pc);
    if pc.Idle? then r == th
    else if IsTest(pc) then
      if pc.TestFail? then r.depth == d && r.answer == 0
      else if pc.TestUnlock? || pc.TestReturn? then r.depth == r.answer == d
      else r.depth == r.answer == d + 1
           || (r.depth == d && r.answer == 0 && (pc.TestLock? || pc.TestCount? || pc.TestOwner? || pc.TestWait?))
    else if IsFree(pc) then r.depth + (if pc.FreeLock? || pc.FreeCheck? || pc.FreeDecrement? then 1 else 0) == d
    else r.depth == if pc.Unlock? then d else d + 1
  }

  lemma EndsStep(s: State, t: nat, r: Thread)
    requires Inv(s) && t < |s.threads| && |StepThread(s, t).threads| == |s.threads|
    requires Ends(StepThread(s, t).threads[t], r)
    ensures Ends(s.threads[t], r)
  {
    assert ThreadInv(s, t);
    if IsTest(s.threads[t].pc) {
      TestEnds(s, t, r);
    } else if IsFree(s.threads[t].pc) {
      FreeEnds(s, t, r);
    } else {
      LockEnds(s, t, r);
    }
  }

  lemma TestEnds(s: State, t: nat, r: Thread)
    requires t < |s.threads| && ThreadInv(s, t) && IsTest(s.threads[t].pc) && Ends(StepTest(s, t).threads[t], r)
    ensures Ends(s.threads[t], r)
  {
  }

  lemma FreeEnds(s: State, t: nat, r: Thread)
    requires t < |s.threads| && ThreadInv(s, t) && IsFree(s.threads[t].pc) && Ends(StepFree(s, t).threads[t], r)
    ensures Ends(s.threads[t], r)
  {
  }

  lemma LockEnds(s: State, t: nat, r: Thread)
    requires t < |s.threads| && ThreadInv(s, t) && !IsTest(s.threads[t].pc) && !IsFree(s.threads[t].pc)
    requires Ends(StepLock(s, t).threads[t], r)
    ensures Ends(s.threads[t], r)
  {
  }

  lemma StepsOthers(s: State, a: Action, t: nat)
    requires Inv(s) && t < |s.threads| && (a.t == t ==> a.Step?)
    ensures |Next(s, a).threads| == |s.threads|
    ensures Next(s, a).threads[t] == if a.t == t then StepThread(s, t).threads[t] else s.threads[t]
  {
    NextInv(s, a);
    if a.Step? && a.t < |s.threads| && a.t != t { OthersStay(s, a.t, t); }
  }

  lemma OthersStay(s: State, t: nat, u: nat)
    requires Inv(s) && t < |s.threads| && u < |s.threads| && u != t
    ensures |StepThread(s, t).threads| == |s.threads| && StepThread(s, t).threads[u] == s.threads[u]
  {
    if IsTest(s.threads[t].pc) {
      TestStepOk(s, t);
    } else if IsFree(s.threads[t].pc) {
      FreeStepOk(s, t);
    } else {
      LockStepOk(s, t);
    }
  }

  lemma {:induction false} CallFrom(s: State, schedule: seq<Action>, t: nat)
    requires Inv(s) && t < |s.threads| && NoCall(schedule, t)
    requires t < |Exec(s, schedule).threads| && Exec(s, schedule).threads[t].pc.Idle?
    ensures Ends(s.threads[t], Exec(s, schedule).threads[t])
    decreases |schedule|
  {
    if schedule == [] {
    } else {
      var a := schedule[0];
      assert a in schedule;
      NextInv(s, a);
      StepsOthers(s, a, t);
      CallFrom(Next(s, a), schedule[1..], t);
      if a.t == t { EndsStep(s, t, Exec(s, schedule).threads[t]); }
    }
  }

  /** A call made in a run, and over at the end of `during`. */
  predicate CallIsOver(s: State, before: seq<Action>, call: Action, during: seq<Action>) {
    var (r, t) := (Exec(s, before), call.t);
    && t < |r.threads| && r.threads[t].pc.Idle? && NoCall(during, t)
    && var r' := Exec(Next(r, call), during);
    t < |r'.threads| && r'.threads[t].pc.Idle?
  }

  lemma CallEnds(s: State, before: seq<Action>, call: Action, during: seq<Action>)
    requires Init(s) && CallIsOver(s, before, call, during)
    ensures var r := Exec(s, before);
      && call.t < |Next(r, call).threads|
      && Ends(Next(r, call).threads[call.t], Exec(Next(r, call), during).threads[call.t])
  {
    InitInv(s);
    ExecInv(s, before);
    NextInv(Exec(s, before), call);
    CallFrom(Next(Exec(s, before), call), during, call.t);
  }

  /** A lock call that is over has taken one level: the thread owns the lock. */
  lemma LockReturns(s: State, before: seq<Action>, t: nat, during: seq<Action>)
    requires Init(s) && CallIsOver(s, before, CallLock(t), during)
    ensures var r := Exec(s, before); var r' := Exec(Next(r, CallLock(t)), during);
      r'.threads[t].depth == r.threads[t].depth + 1 && r'.owner == t && r'.count == r'.threads[t].depth
  {
    var r := Exec(s, before);
    CallEnds(s, before, CallLock(t), during);
    OwnerAfter(s, before, CallLock(t), during);
  }

  /** Whoever has a level after a call is the owner. */
  lemma OwnerAfter(s: State, before: seq<Action>, call: Action, during: seq<Action>)
    requires Init(s) && CallIsOver(s, before, call, during)
    ensures var r := Exec(Next(Exec(s, before), call), during);
      r.threads[call.t].depth > 0 ==> r.owner == call.t && r.count == r.threads[call.t].depth
  {
    InitInv(s);
    ExecInv(s, before);
    NextInv(Exec(s, before), call);
    ExecInv(Next(Exec(s, before), call), during);
    assert ThreadInv(Exec(Next(Exec(s, before), call), during), call.t);
  }

  /** A test that is over has taken one level and returns the new depth, or none and returns 0. */
  lemma TestReturns(s: State, before: seq<Action>, t: nat, during: seq<Action>)
    requires Init(s) && CallIsOver(s, before, CallTest(t), during)
    ensures var r := Exec(s, before); var th, th' := r.threads[t], Exec(Next(r, CallTest(t)), during).threads[t];
      || (th'.depth == th'.answer == th.depth + 1)
      || (th'.depth == th.depth && th'.answer == 0)
  {
    CallEnds(s, before, CallTest(t), during);
  }

  /** An unlock by the owner that is over has given one level back. */
  lemma UnlockReturns(s: State, before: seq<Action>, t: nat, during: seq<Action>)
    requires Init(s) && CallIsOver(s, before, CallUnlock(t), during) && Exec(s, before).threads[t].depth > 0
    ensures var r := Exec(s, before);
      Exec(Next(r, CallUnlock(t)), during).threads[t].depth == r.threads[t].depth - 1
  {
    CallEnds(s, before, CallUnlock(t), during);
  }

  function StepsLeft(pc: Pc): nat {
    match pc
    case Idle => 0
    case ReadCount => 9
    case ReadOwner => 8
    case LockWait => 7
    case LockInner(_) => 6
    case CheckCount => 5
    case CheckOwner => 4
    case Increment => 3
    case SetOwner => 5
    case SetCount => 3
    case Unlock => 1
    case TestLock => 9
    case TestCount => 8
    case TestOwner => 7
    case TestIncrement => 3
    case TestWait => 7
    case TestSetOwner => 5
    case TestSetCount => 3
    case TestFail => 1
    case TestUnlock => 2
    case TestReturn => 1
    case FreeLock => 9
    case FreeCheck => 8
    case FreeDecrement => 7
    case FreeTest => 6
    case FreeWait => 5
    case FreeUnlock => 1
    case _ => 10
  }

  /** A call is over after at most nine steps of its thread that are not blocked. */
  lemma CallsProgress(s: State, schedule: seq<Action>, t: nat)
    requires Init(s) && t < |Exec(s, schedule).threads|
    ensures var r := Exec(s, schedule); var r' := Next(r, Step(t));
      && |r'.threads| == |r.threads| && StepsLeft(r.threads[t].pc) <= 9
      && (!r.threads[t].pc.Idle? && !Blocked(r, t) ==> StepsLeft(r'.threads[t].pc) < StepsLeft(r.threads[t].pc))
  {
    InitInv(s);
    ExecInv(s, schedule);
    var r := Exec(s, schedule);
    NextInv(r, Step(t));
    StepProgresses(r, t);
  }

  lemma StepProgresses(s: State, t: nat)
    requires Inv(s) && t < |s.threads|
    ensures |StepThread(s, t).threads| == |s.threads| && StepsLeft(s.threads[t].pc) <= 9
    ensures !s.threads[t].pc.Idle? && !Blocked(s, t) ==>
      StepsLeft(StepThread(s, t).threads[t].pc) < StepsLeft(s.threads[t].pc)
  {
    assert ThreadInv(s, t);
    if IsTest(s.threads[t].pc) {
      TestProgresses(s, t);
    } else if IsFree(s.threads[t].pc) {
      FreeProgresses(s, t);
    } else {
      LockProgresses(s, t);
    }
  }

  lemma TestProgresses(s: State, t: nat)
    requires t < |s.threads| && IsTest(s.threads[t].pc)
    ensures !Blocked(s, t) ==> StepsLeft(StepTest(s, t).threads[t].pc) < StepsLeft(s.threads[t].pc)
  {
  }

  lemma FreeProgresses(s: State, t: nat)
    requires t < |s.threads| && IsFree(s.threads[t].pc)
    ensures !Blocked(s, t) ==> StepsLeft(StepFree(s, t).threads[t].pc) < StepsLeft(s.threads[t].pc)
  {
  }

  lemma LockProgresses(s: State, t: nat)
    requires Inv(s) && t < |s.threads| && !IsTest(s.threads[t].pc) && !IsFree(s.threads[t].pc)
    ensures !s.threads[t].pc.Idle? && !Blocked(s, t) ==>
      StepsLeft(StepLock(s, t).threads[t].pc) < StepsLeft(s.threads[t].pc)
  {
    assert ThreadInv(s, t);
    if s.count > 0 { PositiveCount(s); }
  }
}
