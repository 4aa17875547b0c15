/**
The dissemination barrier.  In round r of an episode thread i raises a flag at thread
i + 2^r (mod n) and waits for its own; parity and sense let the flags be reused without resetting.
Every flag access is one step.  The team size and the number of episodes are unbounded.
*/
module DisseminationBarrier {
  import opened Arith

  /** A thread's private data.  `episode` counts the barriers it has left; the program never reads it. */
  datatype Thread = Thread(parity: nat, sense: bool, round: nat, raised: bool, episode: nat)

  /** flags[j][r][p] is flag[p] of node r of thread j. */
  datatype State = State(rounds: nat, flags: seq<seq<seq<bool>>>, threads: seq<Thread>)

  function Partner(n: nat, i: nat, r: nat): (j: nat)
    requires n > 0
    ensures j < n
  {
    (i + Pow2(r)) % n
  }

  /** The thread d places before i on the ring. */
  function Before(n: nat, i: int, d: int): (j: nat)
    requires n > 0
    ensures j < n
  {
    (i - d) % n
  }

  predicate Shape(s: State) {
    && |s.threads| >= 2 && s.rounds >= 1
    && Pow2(s.rounds - 1) < |s.threads| <= Pow2(s.rounds)
    && |s.flags| == |s.threads|
    && (forall j :: 0 <= j < |s.flags| ==> |s.flags[j]| == s.rounds)
    && (forall j, r :: 0 <= j < |s.flags| && 0 <= r < s.rounds ==> |s.flags[j][r]| == 2)
    && (forall i :: 0 <= i < |s.threads| ==> s.threads[i].parity < 2 && s.threads[i].round < s.rounds)
  }

  predicate Init(s: State) {
    && Shape(s)
    && (forall j, r, p :: 0 <= j < |s.flags| && 0 <= r < s.rounds && 0 <= p < 2 ==> !s.flags[j][r][p])
    && (forall i :: 0 <= i < |s.threads| ==> s.threads[i] == Thread(0, true, 0, false, 0))
  }

  function SetFlag(flags: seq<seq<seq<bool>>>, j: nat, r: nat, p: nat, v: bool): (f: seq<seq<seq<bool>>>)
    requires j < |flags| && r < |flags[j]| && p < |flags[j][r]|
  {
    flags[j := flags[j][r := flags[j][r][p := v]]]
  }

  /** Passing the wait of a round; after the last round the thread leaves with parity and sense advanced. */
  function Advance(t: Thread, rounds: nat): Thread {
    if t.round + 1 < rounds then t.(round := t.round + 1, raised := false)
    else Thread(if t.parity == 0 then 1 else 0, if t.parity == 1 then !t.sense else t.sense, 0, false, t.episode + 1)
  }

  /** Thread i's next flag access; it is unchanged while the awaited flag is not up. */
  function Next(s: State, i: nat): State
    requires Shape(s)
  {
    if i >= |s.threads| then s
    else
      var t := s.threads[i];
      if !t.raised then
        State(s.rounds, SetFlag(s.flags, Partner(|s.threads|, i, t.round), t.round, t.parity, t.sense),
              s.threads[i := t.(raised := true)])
      else if s.flags[i][t.round][t.parity] == t.sense then
        s.(threads := s.threads[i := Advance(t, s.rounds)])
      else s
  }

  /** Can thread i take a step? */
  predicate Enabled(s: State, i: nat)
    requires Shape(s) && i < |s.threads|
  {
    var t := s.threads[i];
    !t.raised || s.flags[i][t.round][t.parity] == t.sense
  }

  lemma NextShape(s: State, i: nat)
    requires Shape(s)
    ensures Shape(Next(s, i)) && |Next(s, i).threads| == |s.threads| && Next(s, i).rounds == s.rounds
  {
  }

  function Exec(s: State, schedule: seq<nat>): (r: State)
    requires Shape(s)
    ensures Shape(r) && |r.threads| == |s.threads| && r.rounds == s.rounds
    decreases |schedule|
  {
    if schedule == [] then s
    else
      NextShape(s, schedule[0]);
      Exec(Next(s, schedule[0]), schedule[1..])
  }

  // ---------- building the shared structure ----------

  /** The runtime's count of rounds: the least l with 2^l >= n. */
  method Log2TeamSize(n: nat) returns (l: nat)
    requires n >= 1
    ensures Pow2(l) >= n && (l > 0 ==> Pow2(l - 1) < n)
  {
    var k := 1;
    l := 0;
    while k < n
      invariant k == Pow2(l) && (l > 0 ==> Pow2(l - 1) < n)
      decreases n - k
    {
      l, k := l + 1, 2 * k;
    }
  }

  /** Lays out the nodes: row j of thread i points at row j of its partner, and every flag is down. */
  method CreateNodes(n: nat, rounds: nat) returns (partner: array2<nat>, flag: array3<bool>)
    requires n >= 1
    ensures partner.Length0 == flag.Length0 == n && partner.Length1 == flag.Length1 == rounds && flag.Length2 == 2
    ensures forall i, j :: 0 <= i < n && 0 <= j < rounds ==> partner[i, j] == Partner(n, i, j)
    ensures forall i, j, p :: 0 <= i < n && 0 <= j < rounds && 0 <= p < 2 ==> !flag[i, j, p]
  {
    partner := new nat[n, rounds];
    flag := new bool[n, rounds, 2];
    for i := 0 to n
      invariant forall i', j :: 0 <= i' < i && 0 <= j < rounds ==> partner[i', j] == Partner(n, i', j)
      invariant forall i', j, p :: 0 <= i' < i && 0 <= j < rounds && 0 <= p < 2 ==> !flag[i', j, p]
    {
      var d := 1;
      for j := 0 to rounds
        invariant d == Pow2(j)
        invariant forall i', j' :: 0 <= i' < i && 0 <= j' < rounds ==> partner[i', j'] == Partner(n, i', j')
        invariant forall i', j', p :: 0 <= i' < i && 0 <= j' < rounds && 0 <= p < 2 ==> !flag[i', j', p]
        invariant forall j' :: 0 <= j' < j ==> partner[i, j'] == Partner(n, i, j')
        invariant forall j', p :: 0 <= j' < j && 0 <= p < 2 ==> !flag[i, j', p]
      {
        flag[i, j, 0] := false;
        flag[i, j, 1] := false;
        ghost var p := Partner(n, i, j);
        assert p == (i + d) % n;
        partner[i, j] := (i + d) % n;
        assert partner[i, j] == p;
        d := 2 * d;
      }
    }
  }

  // ---------- what a thread has done, in counters ----------

  /** In how many episodes t has raised its flag of round r. */
  function Raised(t: Thread, r: nat): nat {
    t.episode + (if t.round > r || (t.round == r && t.raised) then 1 else 0)
  }

  /** In how many episodes t has arrived, that is, made its first access. */
  function Arrived(t: Thread): nat {
    Raised(t, 0)
  }

  function SenseOf(episode: nat): bool {
    episode / 2 % 2 == 0
  }

  /** What flag p holds once it has been raised in `count` episodes. */
  function FlagAfter(count: nat, p: nat): bool {
    if count >= 1 && (count - 1) % 2 == p then SenseOf(count - 1)
    else if count >= 2 then SenseOf(count - 2)
    else false
  }

  predicate LocalInv(t: Thread) {
    t.parity == t.episode % 2 && t.sense == SenseOf(t.episode)
  }

  /** Nobody has left an episode that somebody has not reached. */
  predicate InStep(s: State) {
    forall i, j :: 0 <= i < |s.threads| && 0 <= j < |s.threads| ==> s.threads[i].episode <= Arrived(s.threads[j])
  }

  /** Once thread i has raised its flag of round r, its 2^r - 1 predecessors and itself have arrived. */
  predicate Knows(s: State, i: nat)
    requires i < |s.threads|
  {
    var t := s.threads[i];
    t.round > 0 || t.raised ==>
      forall d :: 0 <= d < Pow2(t.round) ==> Arrived(s.threads[Before(|s.threads|, i, d)]) > t.episode
  }

  /** A flag records how often the one thread that raises it has done so. */
  predicate FlagRecords(s: State, j: nat, r: nat, p: nat)
    requires Shape(s) && j < |s.threads| && r < s.rounds && p < 2
  {
    s.flags[j][r][p] == FlagAfter(Raised(s.threads[Before(|s.threads|, j, Pow2(r))], r), p)
  }

  predicate FlagsRecord(s: State)
    requires Shape(s)
  {
    forall j, r, p :: 0 <= j < |s.threads| && 0 <= r < s.rounds && 0 <= p < 2 ==> FlagRecords(s, j, r, p)
  }

  predicate Inv(s: State) {
    && Shape(s)
    && (forall i :: 0 <= i < |s.threads| ==> LocalInv(s.threads[i]))
    && InStep(s)
    && (forall i :: 0 <= i < |s.threads| ==> Knows(s, i))
    && FlagsRecord(s)
  }

  // ---------- the ring ----------

  lemma ForthAndBack(n: nat, i: int, d: int, p: int)
    requires 0 <= i < n && p == (i + d) % n
    ensures (p - d) % n == i
  {
    DivModUnique(p - d, n, -((i + d) / n), i);
  }

  lemma BeforePartner(n: nat, i: nat, r: nat)
    requires i < n
    ensures Before(n, Partner(n, i, r), Pow2(r)) == i
  {
    ForthAndBack(n, i, Pow2(r), Partner(n, i, r));
  }

  lemma BackAndForth(n: nat, j: int, d: int, b: int)
    requires 0 <= j < n && b == (j - d) % n
    ensures (b + d) % n == j
  {
    DivModUnique(b + d, n, -((j - d) / n), j);
  }

  lemma PartnerBefore(n: nat, j: nat, r: nat)
    requires j < n
    ensures Partner(n, Before(n, j, Pow2(r)), r) == j
  {
    BackAndForth(n, j, Pow2(r), Before(n, j, Pow2(r)));
  }

  lemma BeforeBefore(n: nat, i: int, a: int, b: int)
    requires n > 0
    ensures Before(n, Before(n, i, a), b) == Before(n, i, a + b)
  {
    ModShift(i - a, -b, n);
  }

  /** Going back fewer than n places reaches every thread. */
  lemma ReachesAll(n: nat, i: int, j: int) returns (d: nat)
    requires 0 <= i < n && 0 <= j < n
    ensures d < n && Before(n, i, d) == j
  {
    d := if i >= j then i - j else i - j + n;
    DivModUnique(i - d, n, if i >= j then 0 else -1, j);
  }

  // ---------- the invariant holds ----------

  lemma InitInv(s: State)
    requires Init(s)
    ensures Inv(s)
  {
  }

  /** The awaited flag is up exactly when the thread that raises it has done so in this episode. */
  lemma FlagUpIffRaised(s: State, i: nat)
    requires Inv(s) && i < |s.threads|
    ensures var t := s.threads[i];
      (s.flags[i][t.round][t.parity] == t.sense) ==
      (Raised(s.threads[Before(|s.threads|, i, Pow2(t.round))], t.round) > t.episode)
  {
    var t := s.threads[i];
    var k := Before(|s.threads|, i, Pow2(t.round));
    assert t.episode <= Arrived(s.threads[k]) && s.threads[k].episode <= Arrived(t);
    assert LocalInv(t) && FlagRecords(s, i, t.round, t.parity);
    var c := Raised(s.threads[k], t.round);
    assert t.episode - 1 <= c <= t.episode + 2;
    FlagParity(t.episode, c);
  }

  lemma FlagParity(e: nat, c: nat)
    requires e <= c + 1 && c <= e + 2
    ensures FlagAfter(c, e % 2) == SenseOf(e) <==> c > e
  {
    if c + 1 == e {
    } else if c == e {
    } else if c == e + 1 {
    } else {
      assert c == e + 2;
    }
  }

  lemma RaiseCounts(s: State, i: nat, k: nat, r: nat)
    requires Shape(s) && i < |s.threads| && !s.threads[i].raised && k < |s.threads|
    ensures Raised(Next(s, i).threads[k], r) ==
            Raised(s.threads[k], r) + (if k == i && r == s.threads[i].round then 1 else 0)
  {
  }

  /** Raising flag p of one more episode: p shows the new sense, the other parity is untouched. */
  lemma FlagAfterRaise(e: nat, p: nat)
    requires p < 2
    ensures FlagAfter(e + 1, p) == if p == e % 2 then SenseOf(e) else FlagAfter(e, p)
  {
    if p != e % 2 && e >= 2 {
      assert (e - 1) % 2 == p;
    }
  }

  lemma RaiseKeepsFlag(s: State, i: nat, j: nat, r: nat, p: nat)
    requires Inv(s) && i < |s.threads| && !s.threads[i].raised && Shape(Next(s, i))
    requires j < |s.threads| && r < s.rounds && p < 2
    ensures FlagRecords(Next(s, i), j, r, p)
  {
    var n, t := |s.threads|, s.threads[i];
    assert FlagRecords(s, j, r, p) && LocalInv(t);
    RaiseCounts(s, i, Before(n, j, Pow2(r)), r);
    if r == t.round && Before(n, j, Pow2(r)) == i {
      PartnerBefore(n, j, r);
      FlagAfterRaise(t.episode, p);
    } else if r == t.round {
      BeforePartner(n, i, r);
    }
  }

  lemma RaiseKeepsInv(s: State, i: nat)
    requires Inv(s) && i < |s.threads| && !s.threads[i].raised && Shape(Next(s, i))
    ensures Inv(Next(s, i))
  {
    var s', n := Next(s, i), |s.threads|;
    forall j, r, p | 0 <= j < n && 0 <= r < s.rounds && 0 <= p < 2 ensures FlagRecords(s', j, r, p) {
      RaiseKeepsFlag(s, i, j, r, p);
    }
    forall k | 0 <= k < n ensures LocalInv(s'.threads[k]) && Arrived(s'.threads[k]) >= Arrived(s.threads[k]) {
      assert LocalInv(s.threads[k]);
    }
    forall k | 0 <= k < n ensures Knows(s', k) {
      RaiseKeepsKnowledge(s, i, k);
    }
  }

  lemma RaiseKeepsKnowledge(s: State, i: nat, k: nat)
    requires Inv(s) && i < |s.threads| && !s.threads[i].raised && Shape(Next(s, i))
    requires k < |s.threads|
    ensures Knows(Next(s, i), k)
  {
    assert Knows(s, k);
    if k == i && s.threads[i].round == 0 {
      assert Before(|s.threads|, i, 0) == i by { DivModUnique(i, |s.threads|, 0, i); }
    }
  }

  /** Passing the wait of round r doubles what thread i knows. */
  lemma PassDoublesKnowledge(s: State, i: nat)
    requires Inv(s) && i < |s.threads| && s.threads[i].raised
    requires s.flags[i][s.threads[i].round][s.threads[i].parity] == s.threads[i].sense
    ensures forall d :: 0 <= d < Pow2(s.threads[i].round + 1) ==>
              Arrived(s.threads[Before(|s.threads|, i, d)]) > s.threads[i].episode
  {
    var n, t := |s.threads|, s.threads[i];
    var h := Pow2(t.round);
    var k := Before(n, i, h);
    FlagUpIffRaised(s, i);
    forall d | 0 <= d < Pow2(t.round + 1) ensures Arrived(s.threads[Before(n, i, d)]) > t.episode {
      if d < h {
        assert Knows(s, i);
      } else {
        BeforeBefore(n, i, h, d - h);
        var j := Before(n, k, d - h);
        if s.threads[k].episode > t.episode {
          assert s.threads[k].episode <= Arrived(s.threads[j]);
        } else {
          assert Knows(s, k);
          Pow2Monotonic(t.round, s.threads[k].round);
        }
      }
    }
  }

  /** Passing a wait raises nothing, so all the counters stand. */
  lemma PassKeepsRaised(s: State, i: nat, k: nat, r: nat)
    requires Shape(s) && i < |s.threads| && s.threads[i].raised && Enabled(s, i)
    requires k < |s.threads| && r < s.rounds
    ensures Raised(Next(s, i).threads[k], r) == Raised(s.threads[k], r)
  {
  }

  lemma PassKeepsFlag(s: State, i: nat, j: nat, r: nat, p: nat)
    requires Inv(s) && i < |s.threads| && s.threads[i].raised && Enabled(s, i) && Shape(Next(s, i))
    requires j < |s.threads| && r < s.rounds && p < 2
    ensures FlagRecords(Next(s, i), j, r, p)
  {
    assert FlagRecords(s, j, r, p);
    PassKeepsRaised(s, i, Before(|s.threads|, j, Pow2(r)), r);
  }

  lemma PassKeepsKnowledge(s: State, i: nat, k: nat)
    requires Inv(s) && i < |s.threads| && s.threads[i].raised && Enabled(s, i) && k < |s.threads|
    ensures Knows(Next(s, i), k)
  {
    assert Knows(s, k);
    PassDoublesKnowledge(s, i);
    var s' := Next(s, i);
    forall d | 0 <= d < Pow2(s'.threads[k].round)
      ensures Arrived(s'.threads[Before(|s.threads|, k, d)]) == Arrived(s.threads[Before(|s.threads|, k, d)])
    {
      PassKeepsRaised(s, i, Before(|s.threads|, k, d), 0);
    }
  }

  /** Whoever passes the last round leaves, and then everyone has arrived. */
  lemma LastPassMeansAll(s: State, i: nat, j: nat)
    requires Inv(s) && i < |s.threads| && s.threads[i].raised && Enabled(s, i) && j < |s.threads|
    requires s.threads[i].round + 1 == s.rounds
    ensures Arrived(s.threads[j]) > s.threads[i].episode
  {
    PassDoublesKnowledge(s, i);
    var d := ReachesAll(|s.threads|, i, j);
  }

  lemma PassKeepsInv(s: State, i: nat)
    requires Inv(s) && i < |s.threads| && s.threads[i].raised && Enabled(s, i) && Shape(Next(s, i))
    ensures Inv(Next(s, i))
  {
    var s', n := Next(s, i), |s.threads|;
    forall j, r, p | 0 <= j < n && 0 <= r < s.rounds && 0 <= p < 2 ensures FlagRecords(s', j, r, p) {
      PassKeepsFlag(s, i, j, r, p);
    }
    forall k | 0 <= k < n ensures LocalInv(s'.threads[k]) && Knows(s', k) {
      assert LocalInv(s.threads[k]);
      PassKeepsKnowledge(s, i, k);
    }
    forall k, j | 0 <= k < n && 0 <= j < n ensures s'.threads[k].episode <= Arrived(s'.threads[j]) {
      PassKeepsRaised(s, i, j, 0);
      assert s.threads[k].episode <= Arrived(s.threads[j]);
      if s.threads[i].round + 1 == s.rounds {
        LastPassMeansAll(s, i, j);
      }
    }
  }

  lemma {:induction false} ExecInv(s: State, schedule: seq<nat>)
    requires Inv(s)
    ensures Inv(Exec(s, schedule))
    decreases |schedule|
  {
    if schedule == [] {
    } else {
      var i := schedule[0];
      NextShape(s, i);
      if i < |s.threads| && !s.threads[i].raised {
        RaiseKeepsInv(s, i);
      } else if i < |s.threads| && Enabled(s, i) {
        PassKeepsInv(s, i);
      }
      ExecInv(Next(s, i), schedule[1..]);
    }
  }

  // ---------- main results ----------

  /** Barrier: in every run, whoever has left episode e left it after all threads had entered it. */
  lemma BarrierHolds(s: State, schedule: seq<nat>, i: nat, j: nat, e: nat)
    requires Init(s) && i < |s.threads| && j < |s.threads|
    ensures var s' := Exec(s, schedule);
      s'.threads[i].episode > e ==> Arrived(s'.threads[j]) > e
  {
    InitInv(s);
    ExecInv(s, schedule);
  }

  /**
  After passing round r of its current episode, thread i knows that the 2^(r+1) - 1 threads before it have
  arrived.
  */
  lemma RoundKnowledge(s: State, schedule: seq<nat>, i: nat, r: nat, d: nat)
    requires Init(s) && i < |s.threads|
    requires r < Exec(s, schedule).threads[i].round && d < Pow2(r + 1)
    ensures var s' := Exec(s, schedule);
      Arrived(s'.threads[Before(|s.threads|, i, d)]) > s'.threads[i].episode
  {
    InitInv(s);
    ExecInv(s, schedule);
    var s' := Exec(s, schedule);
    assert Knows(s', i);
    Pow2Monotonic(r + 1, s'.threads[i].round);
  }

  /**
  No signal is lost: a thread about to raise a flag last raised it two episodes ago, and the one thread
  that waits for it has left that episode; and the flag a thread waits for is up exactly when the one
  thread that raises it has done so in this episode.
  */
  lemma NoSignalLost(s: State, schedule: seq<nat>, i: nat)
    requires Init(s) && i < |s.threads|
    ensures var s', n := Exec(s, schedule), |s.threads|;
      var t := s'.threads[i];
      && (!t.raised ==> t.episode < 2 || s'.threads[Partner(n, i, t.round)].episode > t.episode - 2)
      && (s'.flags[i][t.round][t.parity] == t.sense
          <==> Raised(s'.threads[Before(n, i, Pow2(t.round))], t.round) > t.episode)
  {
    InitInv(s);
    ExecInv(s, schedule);
    FlagUpIffRaised(Exec(s, schedule), i);
  }

  /** Lexicographic order on how far two threads have got. */
  predicate NotAhead(a: Thread, b: Thread) {
    || a.episode < b.episode
    || (a.episode == b.episode && a.round < b.round)
    || (a.episode == b.episode && a.round == b.round && (a.raised ==> b.raised))
  }

  lemma {:induction false} LeastAdvanced(ts: seq<Thread>) returns (m: nat)
    requires ts != []
    ensures m < |ts| && forall i :: 0 <= i < |ts| ==> NotAhead(ts[m], ts[i])
  {
    if |ts| == 1 {
      m := 0;
    } else {
      var m' := LeastAdvanced(ts[..|ts| - 1]);
      m := if NotAhead(ts[m'], ts[|ts| - 1]) then m' else |ts| - 1;
      forall i | 0 <= i < |ts| ensures NotAhead(ts[m], ts[i]) {
        if i < |ts| - 1 {
          assert ts[..|ts| - 1][i] == ts[i];
        }
      }
    }
  }

  /** No deadlock: in every reachable state a thread that nobody is behind can step, so the slowest always moves. */
  lemma SlowestCanStep(s: State, schedule: seq<nat>) returns (m: nat)
    requires Init(s)
    ensures var s' := Exec(s, schedule);
      && m < |s'.threads|
      && (forall i :: 0 <= i < |s'.threads| ==> NotAhead(s'.threads[m], s'.threads[i]))
      && Enabled(s', m) && Next(s', m) != s'
  {
    InitInv(s);
    ExecInv(s, schedule);
    var s' := Exec(s, schedule);
    m := LeastAdvanced(s'.threads);
    FlagUpIffRaised(s', m);
    assert NotAhead(s'.threads[m], s'.threads[Before(|s'.threads|, m, Pow2(s'.threads[m].round))]);
    assert Next(s', m).threads[m] != s'.threads[m];
  }

  // ---------- what a call costs ----------

  /** How often thread i gets an access done in a run; a look at a flag that is not up is none. */
  function Accesses(s: State, schedule: seq<nat>, i: nat): nat
    requires Shape(s)
    decreases |schedule|
  {
    if schedule == [] then 0
    else
      NextShape(s, schedule[0]);
      var r := Next(s, schedule[0]);
      One(schedule[0] == i && r != s) + Accesses(r, schedule[1..], i)
  }

  /** Two accesses a round, from the first round of the first barrier on. */
  function Position(t: Thread, rounds: nat): nat {
    2 * (rounds * t.episode) + 2 * t.round + One(t.raised)
  }

  lemma StepPosition(s: State, a: nat, i: nat)
    requires Shape(s) && i < |s.threads|
    ensures |Next(s, a).threads| == |s.threads|
    ensures Position(Next(s, a).threads[i], s.rounds)
         == Position(s.threads[i], s.rounds) + One(a == i && Next(s, a) != s)
  {
    if a == i && Enabled(s, i) {
      assert Next(s, i).threads[i] != s.threads[i];
      if s.threads[i].raised { AdvancePosition(s.threads[i], s.rounds); }
    }
  }

  lemma AdvancePosition(t: Thread, rounds: nat)
    requires t.raised && t.round < rounds
    ensures Position(Advance(t, rounds), rounds) == Position(t, rounds) + 1
  {
    assert rounds * (t.episode + 1) == rounds * t.episode + rounds;
  }

  lemma {:induction false} AccessesFrom(s: State, schedule: seq<nat>, i: nat)
    requires Shape(s) && i < |s.threads|
    ensures Position(Exec(s, schedule).threads[i], s.rounds)
         == Position(s.threads[i], s.rounds) + Accesses(s, schedule, i)
    decreases |schedule|
  {
    if schedule == [] {
    } else {
      NextShape(s, schedule[0]);
      StepPosition(s, schedule[0], i);
      AccessesFrom(Next(s, schedule[0]), schedule[1..], i);
    }
  }

  /**
  Nobody skips an access: in every run a thread that has left e barriers and is in round r of the next has
  raised and awaited a flag in each of the rounds of those e barriers, and in the r rounds before.
  */
  lemma AccessesPerBarrier(s: State, schedule: seq<nat>, i: nat)
    requires Init(s) && i < |s.threads|
    ensures var t := Exec(s, schedule).threads[i];
      Accesses(s, schedule, i) == 2 * (s.rounds * t.episode) + 2 * t.round + One(t.raised)
  {
    AccessesFrom(s, schedule, i);
  }
}
