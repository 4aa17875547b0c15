/**
The barrier that drains the task pool: nobody leaves it before every thread has arrived and every
deferred task created so far has been counted out.
*/
module TaskBarrier {
  import opened Counting
  import opened TaskScheduler
  import opened TaskPlacement
  import opened TaskKinds
  import opened TaskCounters

  /** How far a thread has got through the barrier. */
  datatype Phase = Outside | Arriving | Looping | SawAll | Leaving | Reset1 | Reset2 | Toggling | Awaiting

  function PhaseOf(th: Thread): Phase
    requires th.stack != []
  {
    match th.stack[0].mode
    case Bar(Arrive) => Arriving
    case Bar(ReadCount) => Looping
    case Bar(DrainCheck) => Looping
    case Bar(DrainTake) => Looping
    case Bar(ReadPending) => SawAll
    case Bar(CountOut) => Leaving
    case Bar(ResetCount) => Reset1
    case Bar(ResetCount2) => Reset2
    case Bar(Toggle) => Toggling
    case Bar(AwaitFlag) => Awaiting
    case _ => Outside
  }

  /** Counted in barrier_count. */
  predicate HasArrived(p: Phase) {
    !p.Outside? && !p.Arriving?
  }

  /** Counted in barrier_count2. */
  predicate HasCountedOut(p: Phase) {
    p.Reset1? || p.Reset2? || p.Toggling? || p.Awaiting?
  }

  /** Out of the draining loop, so done with tasks until the barrier is over. */
  predicate IsPast(p: Phase) {
    p.Leaving? || HasCountedOut(p)
  }

  predicate IsResetting(p: Phase) {
    p.Reset1? || p.Reset2? || p.Toggling?
  }

  /** In the barrier episode now in progress. */
  predicate Current(s: State, t: nat)
    requires t < |s.threads|
  {
    s.threads[t].episode == s.toggles
  }

  predicate AllArrived(s: State)
    requires Tables(s)
  {
    forall t :: 0 <= t < |s.threads| ==> Current(s, t) && HasArrived(PhaseOf(s.threads[t]))
  }

  function Inside(s: State): set<nat>
    requires Tables(s)
  {
    set t: nat | t < |s.threads| && Current(s, t) && HasArrived(PhaseOf(s.threads[t]))
  }

  function CountedOutSet(s: State): set<nat>
    requires Tables(s)
  {
    set t: nat | t < |s.threads| && Current(s, t) && HasCountedOut(PhaseOf(s.threads[t]))
  }

  function Parity(k: nat): bool {
    k % 2 == 1
  }

  predicate BarThread(s: State, t: nat)
    requires Tables(s) && t < |s.threads|
  {
    var (th, p) := (s.threads[t], PhaseOf(s.threads[t]));
    && (Current(s, t) || (th.episode + 1 == s.toggles && p.Awaiting?))
    && (!p.Outside? ==> th.barFlag == Parity(th.episode))
    && (IsPast(p) ==> th.queue == [] && |th.stack| == 1)
    && (Current(s, t) && (p.SawAll? || IsPast(p)) ==> AllArrived(s))
    && (Current(s, t) && IsPast(p) ==> Pending(s) == {})
    && (Current(s, t) && IsResetting(p) ==>
          && (forall u :: 0 <= u < |s.threads| && u != t ==> PhaseOf(s.threads[u]).Awaiting?)
          && s.count == (if p.Reset1? then |s.threads| else 0)
          && s.count2 == (if p.Toggling? then 0 else |s.threads|))
  }

  predicate BarInv(s: State)
    requires Tables(s)
  {
    && s.flag == Parity(s.toggles)
    && (forall t :: 0 <= t < |s.threads| ==> BarThread(s, t))
    && ((forall t :: 0 <= t < |s.threads| ==> !IsResetting(PhaseOf(s.threads[t]))) ==>
          s.count == |Inside(s)| && s.count2 == |CountedOutSet(s)| && s.count2 < |s.threads|)
  }

  lemma InitBar(s: State)
    requires Init(s)
    ensures Placed(s) && BarInv(s)
  {
    InitPlaced(s);
    assert Inside(s) == {} && CountedOutSet(s) == {};
  }

  // ---------- steps outside the barrier protocol ----------

  /** Phases, episodes and flags as before; a queue may only grow for a thread that is not past. */
  predicate SamePhases(s: State, r: State)
    requires Tables(s) && Tables(r)
  {
    && |r.threads| == |s.threads|
    && r.count == s.count && r.count2 == s.count2 && r.flag == s.flag && r.toggles == s.toggles
    && (forall t :: 0 <= t < |s.threads| ==>
          && PhaseOf(r.threads[t]) == PhaseOf(s.threads[t])
          && r.threads[t].episode == s.threads[t].episode && r.threads[t].barFlag == s.threads[t].barFlag
          && (IsPast(PhaseOf(s.threads[t]))
              ==> |r.threads[t].stack| == |s.threads[t].stack| && |r.threads[t].queue| <= |s.threads[t].queue|))
  }

  predicate NobodyPast(s: State)
    requires Tables(s)
  {
    forall t :: 0 <= t < |s.threads| && Current(s, t) ==> !IsPast(PhaseOf(s.threads[t]))
  }

  lemma SamePhasesBar(s: State, r: State)
    requires Tables(s) && Tables(r) && BarInv(s) && SamePhases(s, r)
    requires Pending(r) <= Pending(s) || NobodyPast(s)
    ensures BarInv(r)
  {
    assert Inside(r) == Inside(s) && CountedOutSet(r) == CountedOutSet(s);
    forall t | 0 <= t < |r.threads| ensures BarThread(r, t) {
      assert BarThread(s, t);
    }
  }

  /**
  Under code in progress there is a deferred task, itself counted as pending, or else only undeferred tasks down to the
  implicit one, whose code is in progress, too.
  */
  lemma {:induction false} InProgress(s: State, t: nat, k: nat)
    requires Placed(s) && Kinded(s) && t < |s.threads| && k < |s.threads[t].stack|
    requires s.threads[t].stack[k].mode.Spawning? || s.threads[t].stack[k].mode.Running?
    ensures Pending(s) != {} || PhaseOf(s.threads[t]).Outside?
    decreases k
  {
    if k == 0 {
    } else {
      var x := s.threads[t].stack[k].task;
      assert ThreadOk(s, t) && FrameOk(s, t, k) && OnCreator(s, t, k);
      if s.kinds[x].Deferred? {
        assert x in Pending(s);
      } else {
        InProgress(s, t, k - 1);
      }
    }
  }

  /** Once somebody is past, no code is in progress, and so nobody creates tasks. */
  lemma NoneInProgress(s: State, t: nat)
    requires Placed(s) && Kinded(s) && BarInv(s) && t < |s.threads|
    requires Top(s.threads[t]).mode.Spawning? || Top(s.threads[t]).mode.Running?
    ensures NobodyPast(s)
  {
    InProgress(s, t, |s.threads[t].stack| - 1);
    forall u | 0 <= u < |s.threads| && Current(s, u) ensures !IsPast(PhaseOf(s.threads[u])) {
      assert BarThread(s, u);
    }
  }

  /** A switch changes the top of a stack, never the implicit task at its bottom. */
  lemma SwitchPhases(s: State, t: nat, x: nat)
    requires Tables(s) && t < |s.threads| && x < |s.life| && Tables(Switch(s, t, x)) && !IsPast(PhaseOf(s.threads[t]))
    ensures SamePhases(s, Switch(s, t, x))
  {
  }

  /** A step of one thread that is neither past nor changing its phase. */
  lemma OneThreadPhases(s: State, r: State, t: nat)
    requires Tables(s) && Tables(r) && t < |s.threads| && |r.threads| == |s.threads|
    requires r.threads == s.threads[t := r.threads[t]]
    requires r.count == s.count && r.count2 == s.count2 && r.flag == s.flag && r.toggles == s.toggles
    requires PhaseOf(r.threads[t]) == PhaseOf(s.threads[t]) && !IsPast(PhaseOf(s.threads[t]))
    requires r.threads[t].episode == s.threads[t].episode && r.threads[t].barFlag == s.threads[t].barFlag
    ensures SamePhases(s, r)
  {
  }

  /** Above the implicit task, or with it outside the barrier, nothing changes the phase. */
  lemma StillPhase(th: Thread, th': Thread)
    requires th.stack != [] && th'.stack != []
    requires th'.stack[0] == th.stack[0] || (!th.stack[0].mode.Bar? && !th'.stack[0].mode.Bar?)
    ensures PhaseOf(th') == PhaseOf(th)
  {
  }

  lemma RetopPhases(s: State, t: nat, resume: Mode)
    requires Placed(s) && t < |s.threads| && Taking(Top(s.threads[t]).mode, resume) && Tables(Retop(s, t, resume))
    ensures SamePhases(s, Retop(s, t, resume)) && !IsPast(PhaseOf(s.threads[t]))
  {
    var m := Retop(s, t, resume);
    assert ThreadOk(s, t) && FrameOk(s, t, |s.threads[t].stack| - 1) && FrameOk(s, t, 0);
    if !resume.Bar? {
      StillPhase(s.threads[t], m.threads[t]);
    }
    OneThreadPhases(s, m, t);
  }

  lemma FetchPhases(s: State, t: nat, victim: nat, resume: Mode)
    requires Placed(s) && t < |s.threads| && Taking(Top(s.threads[t]).mode, resume)
    requires Tables(Fetched(s, t, victim, resume)) && Tables(Retop(s, t, resume))
    ensures SamePhases(s, Fetched(s, t, victim, resume)) && !IsPast(PhaseOf(s.threads[t]))
  {
    RetopPhases(s, t, resume);
    QueuesShrink(Retop(s, t, resume), Fetched(s, t, victim, resume));
    SamePhasesTrans(s, Retop(s, t, resume), Fetched(s, t, victim, resume));
  }

  lemma QueuesShrink(s: State, r: State)
    requires Tables(s) && Tables(r) && |r.threads| == |s.threads|
    requires r.count == s.count && r.count2 == s.count2 && r.flag == s.flag && r.toggles == s.toggles
    requires forall t :: 0 <= t < |s.threads| ==>
      && |r.threads[t].queue| <= |s.threads[t].queue|
      && r.threads[t] == s.threads[t].(queue := r.threads[t].queue, stolen := r.threads[t].stolen)
    ensures SamePhases(s, r)
  {
  }

  lemma SamePhasesTrans(s: State, m: State, r: State)
    requires Tables(s) && Tables(m) && Tables(r) && SamePhases(s, m) && SamePhases(m, r)
    ensures SamePhases(s, r)
  {
  }

  lemma TakePhases(s: State, t: nat, victim: nat, resume: Mode)
    requires Placed(s) && t < |s.threads| && Taking(Top(s.threads[t]).mode, resume)
    requires Tables(Take(s, t, victim, resume)) && Tables(Fetched(s, t, victim, resume)) && Tables(Retop(s, t, resume))
    ensures SamePhases(s, Take(s, t, victim, resume))
  {
    var x, f := Found(s, t, victim), Fetched(s, t, victim, resume);
    TakeIsMoves(s, t, victim, resume);
    ResumeKeepsLife(s, t, resume);
    FetchPhases(s, t, victim, resume);
    if x >= 0 {
      SwitchPhases(f, t, x);
      SamePhasesTrans(s, f, Take(s, t, victim, resume));
    }
  }

  lemma TakeBar(s: State, t: nat, victim: nat, resume: Mode)
    requires Placed(s) && BarInv(s) && t < |s.threads| && Taking(Top(s.threads[t]).mode, resume)
    requires Placed(Take(s, t, victim, resume))
    ensures BarInv(Take(s, t, victim, resume))
  {
    FetchedPlaced(s, t, victim, resume);
    ResumeKeepsLife(s, t, resume);
    TakePhases(s, t, victim, resume);
    TakeKeepsPending(s, t, victim, resume);
    SamePhasesBar(s, Take(s, t, victim, resume));
  }

  lemma TakeKeepsPending(s: State, t: nat, victim: nat, resume: Mode)
    requires Placed(s) && t < |s.threads| && Taking(Top(s.threads[t]).mode, resume)
    requires Tables(Take(s, t, victim, resume))
    ensures Pending(Take(s, t, victim, resume)) <= Pending(s)
  {
    assert ThreadOk(s, t) && (victim < |s.threads| ==> ThreadOk(s, victim));
  }

  lemma SpawnBar(s: State, t: nat, blocks: bool)
    requires Placed(s) && BarInv(s) && t < |s.threads| && Top(s.threads[t]).mode.Running?
    requires Placed(Next(s, Spawn(t, blocks)))
    ensures BarInv(Next(s, Spawn(t, blocks)))
  {
    var r := Next(s, Spawn(t, blocks));
    assert Pending(r) <= Pending(s);
    SpawnPhases(s, t, blocks);
    SamePhasesBar(s, r);
  }

  /** An undeferred task appears on top of code in progress, and is not pending. */
  lemma RunNowBar(s: State, t: nat)
    requires Placed(s) && BarInv(s) && t < |s.threads| && Top(s.threads[t]).mode.Running?
    requires Tables(WithUndeferred(s, t)) && Tables(Next(s, RunNow(t)))
    ensures BarInv(Next(s, RunNow(t)))
  {
    var m := WithUndeferred(s, t);
    assert BarThread(s, t) && !IsPast(PhaseOf(s.threads[t]));
    assert SamePhases(s, m);
    SwitchPhases(m, t, |s.parent|);
    SamePhasesTrans(s, m, Next(s, RunNow(t)));
    assert Pending(Next(s, RunNow(t))) <= Pending(s);
    SamePhasesBar(s, Next(s, RunNow(t)));
  }

  lemma SpawnPhases(s: State, t: nat, blocks: bool)
    requires Placed(s) && t < |s.threads| && Top(s.threads[t]).mode.Running? && BarThread(s, t)
    requires Tables(Next(s, Spawn(t, blocks)))
    ensures SamePhases(s, Next(s, Spawn(t, blocks)))
  {
    assert ThreadOk(s, t) && FrameOk(s, t, |s.threads[t].stack| - 1);
    var r := Next(s, Spawn(t, blocks));
    StillPhase(s.threads[t], r.threads[t]);
    OneThreadPhases(s, r, t);
  }

  lemma SpawnStepPhases(s: State, t: nat)
    requires Placed(s) && t < |s.threads| && Top(s.threads[t]).mode.Spawning? && Tables(SpawnStep(s, t))
    requires NobodyPast(s) && BarThread(s, t)
    ensures SamePhases(s, SpawnStep(s, t))
  {
    assert ThreadOk(s, t) && FrameOk(s, t, |s.threads[t].stack| - 1) && FrameOk(s, t, 0);
    assert s.threads[t].stack[0].mode.Bar? ==> |s.threads[t].stack| >= 2;
    SpawnStepStays(s, t);
    StillPhase(s.threads[t], SpawnStep(s, t).threads[t]);
    OneThreadPhases(s, SpawnStep(s, t), t);
  }

  /** What a step of a creation leaves alone. */
  lemma SpawnStepStays(s: State, t: nat)
    requires Tables(s) && t < |s.threads| && Top(s.threads[t]).mode.Spawning?
    requires s.threads[t].stack[0].mode.Bar? ==> |s.threads[t].stack| >= 2
    ensures var r := SpawnStep(s, t);
      && |r.threads| == |s.threads| && r.threads == s.threads[t := r.threads[t]] && r.threads[t].stack != []
      && r.count == s.count && r.count2 == s.count2 && r.flag == s.flag && r.toggles == s.toggles
      && r.threads[t].episode == s.threads[t].episode && r.threads[t].barFlag == s.threads[t].barFlag
      && (r.threads[t].stack[0] == s.threads[t].stack[0]
          || (!s.threads[t].stack[0].mode.Bar? && !r.threads[t].stack[0].mode.Bar?))
  {
  }

  lemma SpawnStepBar(s: State, t: nat)
    requires Placed(s) && Kinded(s) && BarInv(s) && t < |s.threads| && Top(s.threads[t]).mode.Spawning?
    requires Placed(SpawnStep(s, t))
    ensures BarInv(SpawnStep(s, t))
  {
    assert BarThread(s, t);
    NoneInProgress(s, t);
    SpawnStepPhases(s, t);
    SamePhasesBar(s, SpawnStep(s, t));
  }

  /** The steps of an exit other than looking for work. */
  lemma ExitPhases(s: State, t: nat, victim: nat)
    requires Placed(s) && BarInv(s) && t < |s.threads| && IsExit(Top(s.threads[t]).mode)
    requires !Top(s.threads[t]).mode.ExitTake?
    requires Tables(ExitStep(s, t, victim))
    ensures SamePhases(s, ExitStep(s, t, victim))
  {
    var r := ExitStep(s, t, victim);
    assert ThreadOk(s, t) && FrameOk(s, t, |s.threads[t].stack| - 1) && BarThread(s, t);
    StillPhase(s.threads[t], r.threads[t]);
    OneThreadPhases(s, r, t);
  }

  lemma ExitKeepsPending(s: State, t: nat, victim: nat)
    requires Placed(s) && t < |s.threads| && IsExit(Top(s.threads[t]).mode) && !Top(s.threads[t]).mode.ExitTake?
    requires Tables(ExitStep(s, t, victim))
    ensures Pending(ExitStep(s, t, victim)) <= Pending(s)
  {
    match Top(s.threads[t]).mode {
      case ExitBlocking =>
      case _ =>
    }
  }

  lemma ExitStepBar(s: State, t: nat, victim: nat)
    requires Placed(s) && BarInv(s) && t < |s.threads| && IsExit(Top(s.threads[t]).mode)
    requires Placed(ExitStep(s, t, victim))
    ensures BarInv(ExitStep(s, t, victim))
  {
    assert ThreadOk(s, t) && FrameOk(s, t, |s.threads[t].stack| - 1);
    if Top(s.threads[t]).mode.ExitTake? {
      TakeBar(s, t, victim, ExitCheck);
    } else {
      ExitPhases(s, t, victim);
      ExitKeepsPending(s, t, victim);
      SamePhasesBar(s, ExitStep(s, t, victim));
    }
  }

  /** taskwait, the start of an exit, and the tests of taskwait. */
  lemma ModeBar(s: State, t: nat, m: Mode)
    requires Placed(s) && BarInv(s) && t < |s.threads| && !Top(s.threads[t]).mode.Bar? && !m.Bar?
    requires Tables(SetMode(s, t, m))
    ensures BarInv(SetMode(s, t, m))
  {
    var r := SetMode(s, t, m);
    assert ThreadOk(s, t) && FrameOk(s, t, |s.threads[t].stack| - 1);
    assert BarThread(s, t);
    assert Pending(r) == Pending(s);
    SamePhasesBar(s, r);
  }

  // ---------- the steps of the protocol ----------

  /** Only thread t moves, from one phase to another. */
  predicate OnePhaseMoves(s: State, r: State, t: nat)
    requires Tables(s) && Tables(r) && t < |s.threads|
  {
    && |r.threads| == |s.threads|
    && (forall u :: 0 <= u < |s.threads| && u != t ==> r.threads[u] == s.threads[u])
    && r.threads[t].queue == s.threads[t].queue && |r.threads[t].stack| == |s.threads[t].stack| == 1
    && r.life == s.life && r.parent == s.parent && r.kinds == s.kinds && r.numPending == s.numPending
  }

  lemma NobodyResetting(s: State, t: nat)
    requires Tables(s) && BarInv(s) && t < |s.threads| && !HasCountedOut(PhaseOf(s.threads[t]))
    ensures forall u :: 0 <= u < |s.threads| ==> !IsResetting(PhaseOf(s.threads[u]))
  {
    forall u | 0 <= u < |s.threads| ensures !IsResetting(PhaseOf(s.threads[u])) {
      assert BarThread(s, u);
    }
  }

  /** While some thread is not in the current episode's barrier, nobody has seen it complete. */
  lemma NobodySure(s: State, t: nat, u: nat)
    requires Tables(s) && BarInv(s) && t < |s.threads| && u < |s.threads|
    requires !Current(s, t) || !HasArrived(PhaseOf(s.threads[t]))
    ensures Current(s, u) ==> !PhaseOf(s.threads[u]).SawAll? && !IsPast(PhaseOf(s.threads[u]))
    ensures !IsResetting(PhaseOf(s.threads[u]))
  {
    assert BarThread(s, u);
  }

  /** What another thread's move must leave for thread u to be as sure of things as it was. */
  lemma OtherBar(s: State, r: State, t: nat, u: nat)
    requires Tables(s) && Tables(r) && t < |s.threads| && u < |s.threads| && u != t && BarThread(s, u)
    requires OnePhaseMoves(s, r, t) && r.toggles == s.toggles && Pending(r) == Pending(s)
    requires AllArrived(s) ==> AllArrived(r)
    requires Current(s, u) ==> !IsResetting(PhaseOf(s.threads[u]))
    ensures BarThread(r, u)
  {
  }

  lemma EnterBar(s: State, t: nat)
    requires Tables(s) && BarInv(s) && t < |s.threads| && Tables(Next(s, EnterBarrier(t)))
    ensures BarInv(Next(s, EnterBarrier(t)))
  {
    var r := Next(s, EnterBarrier(t));
    if r != s {
      EnteredBar(s, t, r);
    }
  }

  lemma EnteredBar(s: State, t: nat, r: State)
    requires Tables(s) && BarInv(s) && t < |s.threads| && PhaseOf(s.threads[t]).Outside? && Tables(r)
    requires OnePhaseMoves(s, r, t) && PhaseOf(r.threads[t]).Arriving? && r.threads[t].barFlag == s.flag
    requires r.threads[t].episode == s.threads[t].episode && r.toggles == s.toggles && r.flag == s.flag
    requires r.count == s.count && r.count2 == s.count2
    ensures BarInv(r)
  {
    assert BarThread(s, t);
    assert Inside(r) == Inside(s) && CountedOutSet(r) == CountedOutSet(s) && Pending(r) == Pending(s);
    forall u | 0 <= u < |r.threads| ensures BarThread(r, u) && !IsResetting(PhaseOf(s.threads[u])) {
      assert BarThread(s, u);
      NobodySure(s, t, u);
      if u != t { OtherBar(s, r, t, u); }
    }
  }

  lemma ArriveBar(s: State, t: nat, r: State)
    requires Tables(s) && BarInv(s) && t < |s.threads| && PhaseOf(s.threads[t]).Arriving? && |s.threads[t].stack| == 1
    requires r == SetMode(s, t, Bar(ReadCount)).(count := s.count + 1) && Tables(r)
    ensures BarInv(r)
  {
    assert BarThread(s, t);
    assert Pending(r) == Pending(s) && CountedOutSet(r) == CountedOutSet(s);
    AddOne(Inside(s), Inside(r), t);
    forall u | 0 <= u < |r.threads| ensures BarThread(r, u) && !IsResetting(PhaseOf(s.threads[u])) {
      assert BarThread(s, u);
      NobodySure(s, t, u);
      if u != t { OtherBar(s, r, t, u); }
    }
  }

  /** Thread t moves on, without being counted in or out or resetting anything. */
  predicate Advances(s: State, r: State, t: nat, pc: BarPc)
    requires Tables(s) && t < |s.threads|
  {
    && |s.threads[t].stack| == 1 && r == SetMode(s, t, Bar(pc)) && Tables(r)
    && HasArrived(PhaseOf(s.threads[t])) && !HasCountedOut(PhaseOf(s.threads[t]))
    && HasArrived(PhaseOf(r.threads[t])) && !HasCountedOut(PhaseOf(r.threads[t]))
  }

  lemma AdvanceBar(s: State, t: nat, r: State, pc: BarPc)
    requires Tables(s) && BarInv(s) && t < |s.threads| && Advances(s, r, t, pc)
    requires BarThread(r, t)
    ensures BarInv(r)
  {
    assert Pending(r) == Pending(s) && CountedOutSet(r) == CountedOutSet(s) && Inside(r) == Inside(s);
    NobodyResetting(s, t);
    forall u | 0 <= u < |r.threads| ensures BarThread(r, u) {
      assert BarThread(s, u);
      if u != t { OtherBar(s, r, t, u); }
    }
  }

  /** Seeing barrier_count == team_size means everyone is in. */
  lemma SawCountBar(s: State, t: nat, r: State)
    requires Tables(s) && BarInv(s) && t < |s.threads| && s.threads[t].stack[0].mode == Bar(ReadCount)
    requires s.count >= |s.threads| && Advances(s, r, t, ReadPending)
    ensures BarInv(r)
  {
    assert BarThread(s, t);
    NobodyResetting(s, t);
    assert AllArrived(s) by {
      forall u | 0 <= u < |s.threads| ensures Current(s, u) && HasArrived(PhaseOf(s.threads[u])) {
        FullSet(Inside(s), |s.threads|, u);
        assert u in Inside(s);
      }
    }
    AdvanceBar(s, t, r, ReadPending);
  }

  lemma QueuedIsPending(s: State, t: nat)
    requires Placed(s) && Kinded(s) && t < |s.threads| && s.threads[t].queue != []
    ensures |Pending(s)| > 0
  {
    assert ThreadOk(s, t);
    QueuedAreExplicit(s, t, s.threads[t].queue[0]);
    assert s.threads[t].queue[0] in Pending(s);
  }

  lemma NothingPending(s: State, t: nat)
    requires Placed(s) && Kinded(s) && Counted(s) && t < |s.threads| && s.numPending == 0
    ensures Pending(s) == {} && s.threads[t].queue == []
  {
    if s.threads[t].queue != [] {
      QueuedIsPending(s, t);
    }
  }

  /** The pool has been seen empty with everyone in: nobody has anything left to run or to create. */
  lemma SawNonePendingBar(s: State, t: nat, r: State)
    requires Tables(s) && BarInv(s) && t < |s.threads| && PhaseOf(s.threads[t]).SawAll?
    requires Pending(s) == {} && s.threads[t].queue == [] && Advances(s, r, t, CountOut)
    ensures BarInv(r)
  {
    assert BarThread(s, t);
    assert Pending(r) == Pending(s);
    AdvanceBar(s, t, r, CountOut);
  }

  lemma SawPendingBar(s: State, t: nat, r: State)
    requires Tables(s) && BarInv(s) && t < |s.threads| && PhaseOf(s.threads[t]).SawAll?
    requires Advances(s, r, t, DrainCheck)
    ensures BarInv(r)
  {
    assert BarThread(s, t);
    AdvanceBar(s, t, r, DrainCheck);
  }

  lemma CountOutBar(s: State, t: nat, r: State)
    requires Tables(s) && BarInv(s) && t < |s.threads| && PhaseOf(s.threads[t]).Leaving? && |s.threads[t].stack| == 1
    requires var last := s.count2 + 1 == |s.threads|;
      r == SetMode(s, t, Bar(if last then ResetCount else AwaitFlag)).(count2 := s.count2 + 1)
    requires Tables(r)
    ensures BarInv(r)
  {
    assert BarThread(s, t);
    NobodyResetting(s, t);
    AddOne(CountedOutSet(s), CountedOutSet(r), t);
    if s.count2 + 1 == |s.threads| {
      CountOutLast(s, t, r);
    } else {
      CountOutEarlier(s, t, r);
    }
  }

  lemma CountOutEarlier(s: State, t: nat, r: State)
    requires Tables(s) && BarInv(s) && t < |s.threads| && PhaseOf(s.threads[t]).Leaving? && |s.threads[t].stack| == 1
    requires s.count2 + 1 < |s.threads| && r == SetMode(s, t, Bar(AwaitFlag)).(count2 := s.count2 + 1) && Tables(r)
    requires |CountedOutSet(r)| == |CountedOutSet(s)| + 1
    requires forall u :: 0 <= u < |s.threads| ==> !IsResetting(PhaseOf(s.threads[u]))
    ensures BarInv(r)
  {
    assert BarThread(s, t);
    assert Pending(r) == Pending(s) && Inside(r) == Inside(s);
    forall u | 0 <= u < |r.threads| ensures BarThread(r, u) {
      assert BarThread(s, u);
      if u != t { OtherBar(s, r, t, u); }
    }
  }

  /** The last one finds all others waiting for the flag. */
  lemma CountOutLast(s: State, t: nat, r: State)
    requires Tables(s) && BarInv(s) && t < |s.threads| && PhaseOf(s.threads[t]).Leaving? && |s.threads[t].stack| == 1
    requires s.count2 + 1 == |s.threads| && r == SetMode(s, t, Bar(ResetCount)).(count2 := s.count2 + 1) && Tables(r)
    requires |CountedOutSet(r)| == |CountedOutSet(s)| + 1
    requires forall u :: 0 <= u < |s.threads| ==> !IsResetting(PhaseOf(s.threads[u]))
    ensures BarInv(r)
  {
    assert BarThread(s, t);
    assert Pending(r) == Pending(s);
    AllInside(s);
    forall u | 0 <= u < |r.threads| && u != t ensures PhaseOf(r.threads[u]).Awaiting? {
      FullSet(CountedOutSet(r), |r.threads|, u);
      assert u in CountedOutSet(r);
    }
    forall u | 0 <= u < |r.threads| ensures BarThread(r, u) {
      assert BarThread(s, u);
      if u != t { OtherBar(s, r, t, u); }
    }
    assert IsResetting(PhaseOf(r.threads[t]));
  }

  lemma AllInside(s: State)
    requires Tables(s) && AllArrived(s)
    ensures |Inside(s)| == |s.threads|
  {
    HoldsAll(Inside(s), |s.threads|);
    if |s.threads| > 0 {
      FullSet(Inside(s), |s.threads|, 0);
    }
  }

  lemma ResetBar(s: State, t: nat, r: State)
    requires Tables(s) && BarInv(s) && t < |s.threads| && |s.threads[t].stack| == 1 && Tables(r)
    requires (PhaseOf(s.threads[t]).Reset1? && r == SetMode(s, t, Bar(ResetCount2)).(count := 0))
          || (PhaseOf(s.threads[t]).Reset2? && r == SetMode(s, t, Bar(Toggle)).(count2 := 0))
    ensures BarInv(r)
  {
    assert BarThread(s, t);
    assert Pending(r) == Pending(s) && OnePhaseMoves(s, r, t) && IsResetting(PhaseOf(r.threads[t]));
    ResetThread(s, t, r);
    forall u | 0 <= u < |r.threads| ensures BarThread(r, u) {
      assert BarThread(s, u);
      if u != t { OtherBar(s, r, t, u); }
    }
  }

  lemma ResetThread(s: State, t: nat, r: State)
    requires Tables(s) && BarInv(s) && t < |s.threads| && |s.threads[t].stack| == 1 && Tables(r)
    requires (PhaseOf(s.threads[t]).Reset1? && r == SetMode(s, t, Bar(ResetCount2)).(count := 0))
          || (PhaseOf(s.threads[t]).Reset2? && r == SetMode(s, t, Bar(Toggle)).(count2 := 0))
    requires Pending(r) == Pending(s)
    ensures BarThread(r, t)
  {
    assert BarThread(s, t);
  }

  lemma ToggleBar(s: State, t: nat, r: State)
    requires Tables(s) && BarInv(s) && t < |s.threads| && |s.threads[t].stack| == 1 && Tables(r)
    requires PhaseOf(s.threads[t]).Toggling?
    requires r == LeaveBarrier(s, t).(flag := !s.threads[t].barFlag, toggles := s.toggles + 1)
    ensures BarInv(r)
  {
    assert BarThread(s, t);
    assert Inside(r) == {} && CountedOutSet(r) == {};
    forall u | 0 <= u < |r.threads| ensures BarThread(r, u) {
      assert BarThread(s, u);
    }
  }

  lemma AwaitBar(s: State, t: nat, r: State)
    requires Tables(s) && BarInv(s) && t < |s.threads| && |s.threads[t].stack| == 1 && Tables(r)
    requires PhaseOf(s.threads[t]).Awaiting? && s.flag != s.threads[t].barFlag
    requires r == LeaveBarrier(s, t)
    ensures BarInv(r)
  {
    assert BarThread(s, t);
    assert Pending(r) == Pending(s) && Inside(r) == Inside(s) && CountedOutSet(r) == CountedOutSet(s);
    forall u | 0 <= u < |r.threads| ensures BarThread(r, u) && !IsResetting(PhaseOf(s.threads[u])) {
      assert BarThread(s, u);
      NobodySure(s, t, u);
    }
  }
}
