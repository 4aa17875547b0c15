/**
Every run of an ordered loop does a bounded number of steps, so with nobody deadlocked every run can be brought to
its end.
*/
module OrderedSteps {
  import opened Arith
  import opened OrderedLoop

  /** Can thread t take a step?  A look at a count that is not the awaited one is none. */
  predicate Steps(s: State, t: nat) {
    t < |s.threads| && Enabled(s, t)
  }

  /** How many steps a run does. */
  function StepsIn(s: State, schedule: seq<nat>): nat
    decreases |schedule|
  {
    if schedule == [] then 0
    else One(Steps(s, schedule[0])) + StepsIn(Next(s, schedule[0]), schedule[1..])
  }

  /** A chunk costs two steps, an iteration four, the end one; this is what of it lies ahead of or behind a point. */
  function Offset(pc: Pc): int {
    match pc
    case Fetch => 0
    case Loop => -1
    case Wait => 0
    case Region => 1
    case EndRegion => -2
    case Done => 1
  }

  function Share(th: Thread): int {
    th.fetched + th.fetched + Offset(th.pc)
  }

  /** The shares of the first n threads. */
  function Total(threads: seq<Thread>, n: nat): int
    requires n <= |threads|
  {
    if n == 0 then 0 else Total(threads, n - 1) + Share(threads[n - 1])
  }

  /** The steps it took to get here. */
  function Effort(s: State): int {
    4 * |s.log| + Total(s.threads, |s.threads|)
  }

  lemma {:induction false} TotalUpdate(threads: seq<Thread>, t: nat, th: Thread, n: nat)
    requires t < |threads| && n <= |threads|
    ensures Total(threads[t := th], n)
         == Total(threads, n) + (if t < n then Share(th) - Share(threads[t]) else 0)
  {
    if n == 0 {
    } else {
      TotalUpdate(threads, t, th, n - 1);
    }
  }

  lemma StepEffort(s: State, t: nat)
    ensures Effort(Next(s, t)) == Effort(s) + One(Steps(s, t))
  {
    if Steps(s, t) {
      TotalUpdate(s.threads, t, Next(s, t).threads[t], |s.threads|);
    }
  }

  lemma {:induction false} RunEffort(s: State, schedule: seq<nat>)
    ensures Effort(Exec(s, schedule)) == Effort(s) + StepsIn(s, schedule)
    decreases |schedule|
  {
    if schedule == [] {
    } else {
      StepEffort(s, schedule[0]);
      RunEffort(Next(s, schedule[0]), schedule[1..]);
    }
  }

  /** Nobody has fetched more chunks than there are. */
  predicate FetchesBounded(s: State) {
    && |s.threads| >= 1 && Chunks(s) >= 0 && (!s.dealt ==> s.next <= Chunks(s))
    && forall t :: 0 <= t < |s.threads| ==>
         s.threads[t].fetched <= Chunks(s) && (!s.dealt ==> s.threads[t].fetched <= s.next)
  }

  lemma StepBounded(s: State, t: nat)
    requires FetchesBounded(s)
    ensures FetchesBounded(Next(s, t)) && Next(s, t).cuts == s.cuts && |Next(s, t).threads| == |s.threads|
  {
    if Steps(s, t) && s.threads[t].pc.Fetch? {
      MulAtLeast(|s.threads|, s.threads[t].fetched);
      FetchBounded(s, t);
    }
  }

  lemma FetchBounded(s: State, t: nat)
    requires FetchesBounded(s) && t < |s.threads| && s.threads[t].pc.Fetch?
    requires |s.threads| * s.threads[t].fetched >= s.threads[t].fetched
    ensures FetchesBounded(Next(s, t))
  {
    assert s.threads[t].fetched * |s.threads| == |s.threads| * s.threads[t].fetched;
  }

  lemma {:induction false} RunBounded(s: State, schedule: seq<nat>)
    requires FetchesBounded(s)
    ensures var r := Exec(s, schedule); FetchesBounded(r) && r.cuts == s.cuts && |r.threads| == |s.threads|
    decreases |schedule|
  {
    if schedule == [] {
    } else {
      StepBounded(s, schedule[0]);
      RunBounded(Next(s, schedule[0]), schedule[1..]);
    }
  }

  lemma {:induction false} TotalBounded(threads: seq<Thread>, chunks: nat, n: nat)
    requires n <= |threads| && forall t :: 0 <= t < |threads| ==> threads[t].fetched <= chunks
    ensures Total(threads, n) <= n * (2 * chunks + 1)
  {
    if n == 0 {
    } else {
      TotalBounded(threads, chunks, n - 1);
      assert n * (2 * chunks + 1) == (n - 1) * (2 * chunks + 1) + (2 * chunks + 1);
    }
  }

  lemma {:induction false} TotalAtStart(threads: seq<Thread>, n: nat)
    requires n <= |threads| && forall t :: 0 <= t < |threads| ==> threads[t].pc.Fetch? && threads[t].fetched == 0
    ensures Total(threads, n) == 0
  {
    if n == 0 {
    } else {
      TotalAtStart(threads, n - 1);
    }
  }

  lemma LogBounded(s: State, schedule: seq<nat>)
    requires Init(s)
    ensures |Exec(s, schedule).log| <= s.trip
  {
    InitInv(s);
    ExecInv(s, schedule);
  }

  lemma AtStart(s: State)
    requires Init(s)
    ensures Effort(s) == 0 && FetchesBounded(s)
  {
    TotalAtStart(s.threads, |s.threads|);
  }

  lemma EffortBounded(s: State, r: State)
    requires FetchesBounded(r) && r.cuts == s.cuts && |r.threads| == |s.threads| && |r.log| <= s.trip
    ensures Effort(r) <= 4 * s.trip + |s.threads| * (2 * Chunks(s) + 1)
  {
    TotalBounded(r.threads, Chunks(s), |r.threads|);
  }

  /** Somebody who has not finished means somebody who can step. */
  lemma SomeoneSteps(s: State, schedule: seq<nat>, t: nat)
    requires Init(s) && t < |Exec(s, schedule).threads| && !Exec(s, schedule).threads[t].pc.Done?
    ensures exists u: nat :: Steps(Exec(s, schedule), u)
  {
    var u := SomeoneCanStep(s, schedule, t);
    assert Steps(Exec(s, schedule), u);
  }

  /**
  Every run over a valid plan does at most four steps an iteration and, for each thread, two a chunk and one at its
  end; as long as somebody has not finished, somebody can do one more.
  */
  lemma RunsEnd(s: State, schedule: seq<nat>)
    requires Init(s)
    ensures StepsIn(s, schedule) <= 4 * s.trip + |s.threads| * (2 * Chunks(s) + 1)
    ensures AllDone(Exec(s, schedule)) || exists t: nat :: Steps(Exec(s, schedule), t)
  {
    LogBounded(s, schedule);
    AtStart(s);
    RunEffort(s, schedule);
    RunBounded(s, schedule);
    EffortBounded(s, Exec(s, schedule));
    if t :| 0 <= t < |Exec(s, schedule).threads| && !Exec(s, schedule).threads[t].pc.Done? {
      SomeoneSteps(s, schedule, t);
    }
  }

  /** The chunks fetched by the first n threads together. */
  function FetchedBy(threads: seq<Thread>, n: nat): nat
    requires n <= |threads|
  {
    if n == 0 then 0 else FetchedBy(threads, n - 1) + threads[n - 1].fetched
  }

  lemma {:induction false} TotalAtEnd(threads: seq<Thread>, n: nat)
    requires n <= |threads| && forall t :: 0 <= t < |threads| ==> threads[t].pc.Done?
    ensures Total(threads, n) == n + 2 * FetchedBy(threads, n)
  {
    if n == 0 {
    } else {
      TotalAtEnd(threads, n - 1);
    }
  }

  /** Nobody skips a step: a run that is over has done four for every iteration and two for every chunk fetched. */
  lemma StepsAtTheEnd(s: State, schedule: seq<nat>)
    requires Init(s) && AllDone(Exec(s, schedule))
    ensures var r := Exec(s, schedule);
      StepsIn(s, schedule) == 4 * s.trip + 2 * FetchedBy(r.threads, |r.threads|) + |r.threads|
  {
    AllDoneMeansAll(s, schedule);
    AtStart(s);
    RunEffort(s, schedule);
    TotalAtEnd(Exec(s, schedule).threads, |Exec(s, schedule).threads|);
  }
}
