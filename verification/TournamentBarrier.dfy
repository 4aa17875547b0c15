/**
The tournament barrier.  In round k a thread whose number ends in k zero bits either loses to the thread
2^k below it, raising that thread's flag, or waits for the thread 2^k above it; the champion, thread 0,
finally sets a sense that everybody else waits for.  Every shared access is one step.
*/
module TournamentBarrier {
  import opened Arith

  datatype Role = Loser | Winner | Champion | Noop | Dropout

  /** Program points of one thread; `Walk` is the loop over the rounds. */
  datatype Pc = Outside | Walk | SetChampion | AwaitChampion

  /**
  `round` is where the thread is in its rounds array.  `episode` counts the barriers left; the program never
  reads it.
  */
  datatype Thread = Thread(pc: Pc, round: nat, sense: bool, episode: nat)

  /** flags[v][k] is the flag of round k of thread v. */
  datatype State = State(rounds: nat, flags: seq<seq<bool>>, championSense: bool, threads: seq<Thread>)

  // ---------- the roles ----------

  /** Bit k is the lowest set bit of v. */
  predicate LosesAt(v: nat, k: nat) {
    v % Pow2(k + 1) == Pow2(k)
  }

  /** Bits 0 to k of v are clear. */
  predicate PlaysAt(v: nat, k: nat) {
    v % Pow2(k + 1) == 0
  }

  function RoleOf(n: nat, rounds: nat, v: nat, k: nat): Role {
    if LosesAt(v, k) then Loser
    else if !PlaysAt(v, k) then Dropout
    else if v == 0 && k + 1 == rounds then Champion
    else PlayerRole(n, v, k)
  }

  /** A thread still in plays a winner's round if it has an opponent. */
  function PlayerRole(n: nat, v: nat, k: nat): Role {
    if v + Pow2(k) < n then Winner else Noop
  }

  /** Bits 0 to k - 1 of v are clear. */
  predicate InAt(v: nat, k: nat) {
    v % Pow2(k) == 0
  }

  predicate Sizes(n: nat, rounds: nat) {
    n >= 2 && rounds >= 1 && Pow2(rounds - 1) < n <= Pow2(rounds)
  }

  /** Before its lowest set bit a thread plays on, after it the thread is out. */
  lemma OneFate(v: nat, j: nat, k: nat)
    requires j < k && LosesAt(v, j)
    ensures !LosesAt(v, k) && !PlaysAt(v, k)
  {
    if LosesAt(v, k) || PlaysAt(v, k) {
      ModPow2Split(v, k);
      ModPow2Lower(v, j + 1, k);
    }
  }

  /** A thread still in at round k either loses there or plays on. */
  lemma StillIn(v: nat, k: nat)
    requires InAt(v, k)
    ensures LosesAt(v, k) || PlaysAt(v, k)
  {
    ModPow2Split(v, k);
  }

  /** The loser of round k plays the thread 2^k below it, which plays nobody else there. */
  lemma LoserOpponent(v: nat, k: nat)
    requires LosesAt(v, k)
    ensures v >= Pow2(k) && PlaysAt(v - Pow2(k), k)
  {
    ModAtMost(v, Pow2(k + 1));
    ModPow2Bit(v - Pow2(k), k);
  }

  /** A nonzero thread number below 2^rounds cannot play through every round. */
  lemma LosesInTime(n: nat, rounds: nat, v: nat, k: nat)
    requires Sizes(n, rounds) && 0 < v < n && k < rounds && PlaysAt(v, k)
    ensures k + 1 < rounds
  {
    if k + 1 == rounds {
      ModSmall(v, Pow2(rounds));
    }
  }

  /** The round in which v loses: the search of the initialisation. */
  lemma {:induction false} LosingRound(n: nat, rounds: nat, v: nat, from: nat) returns (k: nat)
    requires Sizes(n, rounds) && 0 < v < n && from < rounds && InAt(v, from)
    ensures from <= k < rounds && LosesAt(v, k)
    decreases rounds - from
  {
    StillIn(v, from);
    if LosesAt(v, from) {
      k := from;
    } else {
      LosesInTime(n, rounds, v, from);
      k := LosingRound(n, rounds, v, from + 1);
    }
  }

  /**
  Every nonzero thread is LOSER in exactly one round, that of its lowest set bit, and there its opponent
  is WINNER or CHAMPION; before that round it is WINNER or NOOP, after it DROPOUT.
  */
  lemma EveryoneLosesOnce(n: nat, rounds: nat, v: nat) returns (k: nat)
    requires Sizes(n, rounds) && 0 < v < n
    ensures k < rounds && RoleOf(n, rounds, v, k) == Loser
    ensures forall j :: 0 <= j < k ==> RoleOf(n, rounds, v, j).Winner? || RoleOf(n, rounds, v, j).Noop?
    ensures forall j :: k < j < rounds ==> RoleOf(n, rounds, v, j) == Dropout
    ensures v >= Pow2(k) && (RoleOf(n, rounds, v - Pow2(k), k).Winner? || RoleOf(n, rounds, v - Pow2(k), k).Champion?)
  {
    k := LosingRound(n, rounds, v, 0);
    forall j | k < j < rounds ensures RoleOf(n, rounds, v, j) == Dropout {
      OneFate(v, k, j);
    }
    forall j | 0 <= j < k ensures RoleOf(n, rounds, v, j).Winner? || RoleOf(n, rounds, v, j).Noop? {
      ModPow2Split(v, k);
      ModPow2Lower(v, j + 1, k);
    }
    LoserOpponent(v, k);
  }

  /** What thread v lays out for itself: its roles, whom it signals (-1 for nobody), its flags down. */
  method CreateRounds(n: nat, rounds: nat, v: nat) returns (role: array<Role>, opponent: array<int>, flag: array<bool>)
    requires Sizes(n, rounds) && v < n
    ensures role.Length == opponent.Length == flag.Length == rounds
    ensures forall k :: 0 <= k < rounds ==> role[k] == RoleOf(n, rounds, v, k) && !flag[k]
    ensures forall k :: 0 <= k < rounds && LosesAt(v, k) ==> opponent[k] == v - Pow2(k)
  {
    role, opponent, flag := new Role[rounds](_ => Dropout), new int[rounds](_ => -1), new bool[rounds](_ => false);
    var k := FillRoles(n, rounds, v, role, opponent);
    if v == 0 {
      role[k - 1] := Champion;
    }
  }

  /** The loop over the rounds; it stops where v loses. */
  method FillRoles(n: nat, rounds: nat, v: nat, role: array<Role>, opponent: array<int>) returns (k: nat)
    requires Sizes(n, rounds) && v < n && role.Length == opponent.Length == rounds
    requires forall j :: 0 <= j < rounds ==> role[j] == Dropout
    modifies role, opponent
    ensures forall j :: 0 <= j < rounds && !(v == 0 && j + 1 == rounds) ==> role[j] == RoleOf(n, rounds, v, j)
    ensures forall j :: 0 <= j < rounds && LosesAt(v, j) ==> opponent[j] == v - Pow2(j)
    ensures v == 0 ==> k == rounds
  {
    k := 0;
    InAtZero(v);
    while k < rounds
      invariant 0 <= k <= rounds && InAt(v, k)
      invariant forall j :: 0 <= j < k ==> PlaysAt(v, j) && role[j] == PlayerRole(n, v, j)
      invariant forall j :: k <= j < rounds ==> role[j] == Dropout
    {
      StillIn(v, k);
      if PlaysAt(v, k) {
        role[k] := PlayerRole(n, v, k);
        opponent[k] := -1;
      } else if LosesAt(v, k) {
        role[k] := Loser;
        opponent[k] := v - Pow2(k);
        OutAfter(n, rounds, v, k);
        PlayedBefore(n, rounds, v, k);
        return;
      }
      k := k + 1;
    }
    PlayedBefore(n, rounds, v, rounds);
  }

  lemma InAtZero(v: nat)
    ensures InAt(v, 0)
  {
    DivModUnique(v, 1, v, 0);
  }

  lemma PlayedBefore(n: nat, rounds: nat, v: nat, k: nat)
    requires k <= rounds && forall j :: 0 <= j < k ==> PlaysAt(v, j)
    ensures forall j :: 0 <= j < k ==>
      !LosesAt(v, j) && ((v == 0 && j + 1 == rounds) || RoleOf(n, rounds, v, j) == PlayerRole(n, v, j))
  {
    forall j | 0 <= j < k
      ensures !LosesAt(v, j) && ((v == 0 && j + 1 == rounds) || RoleOf(n, rounds, v, j) == PlayerRole(n, v, j))
    {
      assert PlaysAt(v, j);
    }
  }

  lemma OutAfter(n: nat, rounds: nat, v: nat, k: nat)
    requires LosesAt(v, k)
    ensures v > 0 && forall j :: k < j < rounds ==> RoleOf(n, rounds, v, j) == Dropout && !LosesAt(v, j)
  {
    LoserOpponent(v, k);
    forall j | k < j < rounds ensures RoleOf(n, rounds, v, j) == Dropout && !LosesAt(v, j) {
      OneFate(v, k, j);
    }
  }

  // ---------- the program ----------

  predicate Shape(s: State) {
    && Sizes(|s.threads|, s.rounds)
    && |s.flags| == |s.threads|
    && (forall v :: 0 <= v < |s.flags| ==> |s.flags[v]| == s.rounds)
  }

  predicate Init(s: State) {
    && Shape(s) && !s.championSense
    && (forall v, k :: 0 <= v < |s.flags| && 0 <= k < s.rounds ==> !s.flags[v][k])
    && (forall v :: 0 <= v < |s.threads| ==> s.threads[v] == Thread(Outside, 0, true, 0))
  }

  function MyRole(s: State, v: nat): Role
    requires v < |s.threads|
  {
    RoleOf(|s.threads|, s.rounds, v, s.threads[v].round)
  }

  /** The loop never runs past the rounds array, and always finds a role it handles or skips over a bye. */
  predicate InRounds(s: State, v: nat)
    requires v < |s.threads|
  {
    var t := s.threads[v];
    && (t.pc.Walk? ==> t.round < s.rounds && InAt(v, t.round))
    && (t.pc.AwaitChampion? ==> t.round < s.rounds && LosesAt(v, t.round))
    && (t.pc.SetChampion? ==> v == 0)
  }

  predicate Enabled(s: State, v: nat)
    requires Shape(s) && v < |s.threads| && InRounds(s, v)
  {
    var t := s.threads[v];
    match t.pc
    case Walk => (MyRole(s, v).Winner? || MyRole(s, v).Champion?) ==> s.flags[v][t.round] == t.sense
    case AwaitChampion => s.championSense == t.sense
    case _ => true
  }

  function Leave(t: Thread): Thread {
    Thread(Outside, 0, !t.sense, t.episode + 1)
  }

  /** Thread v's next access, or nothing while it spins. */
  function Next(s: State, v: nat): State
    requires Shape(s) && (v < |s.threads| ==> InRounds(s, v))
  {
    if v >= |s.threads| || !Enabled(s, v) then s
    else
      var t := s.threads[v];
      match t.pc
      case Outside => s.(threads := s.threads[v := t.(pc := Walk, round := 0)])
      case Walk => (
        match MyRole(s, v)
        case Loser =>
          LoserOpponent(v, t.round);
          var w := v - Pow2(t.round);
          s.(flags := s.flags[w := s.flags[w][t.round := t.sense]], threads := s.threads[v := t.(pc := AwaitChampion)])
        case Champion => s.(threads := s.threads[v := t.(pc := SetChampion)])
        case _ => s.(threads := s.threads[v := t.(round := t.round + 1)]))
      case SetChampion => s.(championSense := t.sense, threads := s.threads[v := Leave(t)])
      case AwaitChampion => s.(threads := s.threads[v := Leave(t)])
  }

  // ---------- what a thread has done, in counters ----------

  function Arrived(t: Thread): nat {
    t.episode + (if t.pc.Outside? then 0 else 1)
  }

  /** How often the thread has raised its opponent's flag. */
  function Signalled(t: Thread): nat {
    t.episode + (if t.pc.AwaitChampion? then 1 else 0)
  }

  /** The episode of the champion. */
  function Current(s: State): nat
    requires Shape(s)
  {
    s.threads[0].episode
  }

  predicate ThreadInv(s: State, v: nat)
    requires Shape(s) && v < |s.threads|
  {
    var t := s.threads[v];
    && InRounds(s, v)
    && t.sense == (t.episode % 2 == 0)
    && (t.episode == Current(s) || (t.episode + 1 == Current(s) && t.pc.AwaitChampion?))
  }

  /** A flag is up exactly when thread o has signalled an odd number of times. */
  predicate Records(s: State, v: nat, k: nat, o: nat)
    requires Shape(s) && v < |s.threads| && k < s.rounds && o < |s.threads|
  {
    s.flags[v][k] == (Signalled(s.threads[o]) % 2 == 1)
  }

  /** The flag of a round records how often the one thread that raises it has done so. */
  predicate FlagInv(s: State, v: nat, k: nat)
    requires Shape(s) && v < |s.threads| && k < s.rounds
  {
    PlaysAt(v, k) && v + Pow2(k) < |s.threads| ==> Records(s, v, k, v + Pow2(k))
  }

  /** Every thread in [from, to) has signalled in the current episode. */
  predicate Covered(s: State, from: nat, to: nat)
    requires Shape(s)
  {
    forall w :: from <= w < to && w < |s.threads| ==> Signalled(s.threads[w]) > Current(s)
  }

  /** A thread in round k answers for the 2^k threads from itself on. */
  predicate CoverInv(s: State, v: nat)
    requires Shape(s) && v < |s.threads|
  {
    var t := s.threads[v];
    && ((t.pc.Walk? || t.pc.AwaitChampion?) && t.episode == Current(s) ==> Covered(s, v + 1, v + Pow2(t.round)))
    && (t.pc.SetChampion? ==> Covered(s, 1, |s.threads|))
  }

  predicate Inv(s: State) {
    && Shape(s) && s.championSense == (Current(s) % 2 == 1)
    && (forall v :: 0 <= v < |s.threads| ==> ThreadInv(s, v) && CoverInv(s, v))
    && (forall v, k :: 0 <= v < |s.threads| && 0 <= k < s.rounds ==> FlagInv(s, v, k))
  }

  lemma InitInv(s: State)
    requires Init(s)
    ensures Inv(s)
  {
  }

  /** Whoever has signalled in the current episode is waiting for the champion. */
  lemma SignalledAwaits(s: State, w: nat)
    requires Inv(s) && w < |s.threads|
    ensures Current(s) <= Signalled(s.threads[w]) <= Current(s) + 1
    ensures Signalled(s.threads[w]) > Current(s)
        <==> s.threads[w].pc.AwaitChampion? && s.threads[w].episode == Current(s)
  {
    assert ThreadInv(s, w);
  }

  /** The awaited flag is up exactly when the opponent has signalled in this episode. */
  lemma FlagUpIffSignalled(s: State, v: nat, k: nat)
    requires Inv(s) && v < |s.threads| && s.threads[v].pc.Walk? && k == s.threads[v].round < s.rounds
    requires PlaysAt(v, k) && v + Pow2(k) < |s.threads|
    ensures s.flags[v][k] == s.threads[v].sense <==> Signalled(s.threads[v + Pow2(k)]) > Current(s)
  {
    assert ThreadInv(s, v) && FlagInv(s, v, k);
    SignalledAwaits(s, v + Pow2(k));
  }

  lemma RootNeverLoses(k: nat)
    ensures PlaysAt(0, k) && !LosesAt(0, k)
  {
    ModSmall(0, Pow2(k + 1));
  }

  /** Thread 0 has an opponent in every round, the last one included. */
  lemma RootHasOpponents(n: nat, rounds: nat, k: nat)
    requires Sizes(n, rounds) && k < rounds
    ensures PlaysAt(0, k) && !LosesAt(0, k) && Pow2(k) < n
  {
    RootNeverLoses(k);
    Pow2Monotonic(k, rounds - 1);
  }

  /** One round won doubles what a thread answers for. */
  lemma RoundDoublesCover(s: State, v: nat, k: nat)
    requires Inv(s) && v < |s.threads| && s.threads[v].pc.Walk? && k == s.threads[v].round < s.rounds && PlaysAt(v, k)
    requires v + Pow2(k) < |s.threads| ==> s.flags[v][k] == s.threads[v].sense
    ensures s.threads[v].episode == Current(s) && Covered(s, v + 1, v + Pow2(k + 1))
  {
    assert ThreadInv(s, v) && CoverInv(s, v);
    var w := v + Pow2(k);
    if w < |s.threads| {
      FlagUpIffSignalled(s, v, k);
      SignalledAwaits(s, w);
      assert ThreadInv(s, w) && CoverInv(s, w);
      ModPow2Bit(v, k);
      SameRound(w, k, s.threads[w].round);
      forall x | v + 1 <= x < v + Pow2(k + 1) && x < |s.threads| ensures Signalled(s.threads[x]) > Current(s) {
        assert x < v + Pow2(k) || x == w || w + 1 <= x < w + Pow2(k);
      }
    }
  }

  lemma SameRound(v: nat, j: nat, k: nat)
    requires LosesAt(v, j) && LosesAt(v, k)
    ensures j == k
  {
    if j < k { OneFate(v, j, k); }
    if k < j { OneFate(v, k, j); }
  }

  // ---------- every step ----------

  /** One thread moves without signalling or leaving. */
  predicate QuietMove(s: State, r: State, v: nat)
    requires Shape(s) && v < |s.threads|
  {
    && r.rounds == s.rounds && r.flags == s.flags && r.championSense == s.championSense
    && |r.threads| == |s.threads| && r.threads == s.threads[v := r.threads[v]]
    && r.threads[v].episode == s.threads[v].episode && r.threads[v].sense == s.threads[v].sense
    && !r.threads[v].pc.AwaitChampion? && !s.threads[v].pc.AwaitChampion?
  }

  lemma QuietInv(s: State, r: State, v: nat)
    requires Inv(s) && v < |s.threads| && QuietMove(s, r, v) && InRounds(r, v) && CoverInv(r, v)
    ensures Inv(r)
  {
    assert ThreadInv(s, v);
    forall u | 0 <= u < |r.threads| ensures ThreadInv(r, u) && CoverInv(r, u) {
      assert ThreadInv(s, u) && CoverInv(s, u);
    }
    forall u, k | 0 <= u < |r.threads| && 0 <= k < r.rounds ensures FlagInv(r, u, k) {
      assert FlagInv(s, u, k);
    }
  }

  lemma EnterInv(s: State, v: nat)
    requires Inv(s) && v < |s.threads| && s.threads[v].pc.Outside?
    requires InRounds(s, v)
    ensures Inv(Next(s, v))
  {
    InAtZero(v);
    QuietInv(s, Next(s, v), v);
  }

  /** Winning a round, or skipping it. */
  lemma AdvanceInv(s: State, v: nat)
    requires Inv(s) && v < |s.threads| && InRounds(s, v) && s.threads[v].pc.Walk? && !MyRole(s, v).Loser?
    requires Enabled(s, v)
    ensures Inv(Next(s, v))
  {
    var k := s.threads[v].round;
    StillIn(v, k);
    RoundDoublesCover(s, v, k);
    if v > 0 {
      LosesInTime(|s.threads|, s.rounds, v, k);
    } else {
      RootHasOpponents(|s.threads|, s.rounds, k);
    }
    AdvanceCover(s, v, k);
    QuietInv(s, Next(s, v), v);
  }

  lemma AdvanceCover(s: State, v: nat, k: nat)
    requires Inv(s) && v < |s.threads| && InRounds(s, v) && s.threads[v].pc.Walk? && Enabled(s, v)
    requires k == s.threads[v].round && PlaysAt(v, k) && Covered(s, v + 1, v + Pow2(k + 1))
    requires v > 0 ==> k + 1 < s.rounds
    ensures QuietMove(s, Next(s, v), v) && InRounds(Next(s, v), v) && CoverInv(Next(s, v), v)
  {
    var r := Next(s, v);
    assert forall x :: 0 <= x < |s.threads| ==> Signalled(r.threads[x]) == Signalled(s.threads[x]);
  }

  /** Thread v goes on to wait for the champion, with its opponent w's flag of round k raised. */
  function Raised(s: State, v: nat, w: nat, k: nat): (r: State)
    requires Shape(s) && v < |s.threads| && w < |s.threads| && k < s.rounds
    ensures Shape(r) && r.rounds == s.rounds && |r.threads| == |s.threads|
  {
    var t := s.threads[v];
    s.(flags := s.flags[w := s.flags[w][k := t.sense]], threads := s.threads[v := t.(pc := AwaitChampion)])
  }

  predicate Loses(s: State, v: nat, w: nat, k: nat)
    requires Shape(s)
  {
    && v < |s.threads| && w < v && v == w + Pow2(k)
    && s.threads[v].pc.Walk? && k == s.threads[v].round < s.rounds && LosesAt(v, k)
  }

  /** Losing: the flag goes up, and only that flag. */
  lemma LoseInv(s: State, v: nat)
    requires Inv(s) && v < |s.threads| && InRounds(s, v) && s.threads[v].pc.Walk? && MyRole(s, v).Loser?
    ensures Inv(Next(s, v))
  {
    var k := s.threads[v].round;
    LoserOpponent(v, k);
    var w := v - Pow2(k);
    assert Next(s, v) == Raised(s, v, w, k);
    RaisedInv(s, v, w, k);
  }

  lemma RaisedInv(s: State, v: nat, w: nat, k: nat)
    requires Inv(s) && Loses(s, v, w, k)
    ensures Inv(Raised(s, v, w, k))
  {
    var r := Raised(s, v, w, k);
    forall u | 0 <= u < |r.threads| ensures ThreadInv(r, u) && CoverInv(r, u) {
      RaisedThread(s, v, w, k, u);
    }
    forall u, j | 0 <= u < |r.threads| && 0 <= j < r.rounds ensures FlagInv(r, u, j) {
      RaisedFlag(s, v, w, k, u, j);
    }
  }

  lemma RaisedThread(s: State, v: nat, w: nat, k: nat, u: nat)
    requires Inv(s) && Loses(s, v, w, k) && u < |s.threads|
    ensures ThreadInv(Raised(s, v, w, k), u) && CoverInv(Raised(s, v, w, k), u)
  {
    assert ThreadInv(s, v) && ThreadInv(s, u) && CoverInv(s, u);
  }

  /** The flag raised is the only one that v has to do with. */
  lemma OnlyThatFlag(v: nat, w: nat, k: nat, u: nat, j: nat)
    requires LosesAt(v, k) && v == w + Pow2(k) && PlaysAt(u, j) && v == u + Pow2(j)
    ensures u == w && j == k
  {
    ModPow2Bit(u, j);
    SameRound(v, j, k);
  }

  lemma RaisedRecord(s: State, v: nat, w: nat, k: nat, u: nat, j: nat, o: nat)
    requires Shape(s) && v < |s.threads| && ThreadInv(s, v) && s.threads[v].pc.Walk? && w < |s.threads| && k < s.rounds
    requires u < |s.threads| && j < s.rounds && o < |s.threads| && Records(s, u, j, o)
    requires o == v <==> u == w && j == k
    ensures Records(Raised(s, v, w, k), u, j, o)
  {
  }

  lemma RaisedFlag(s: State, v: nat, w: nat, k: nat, u: nat, j: nat)
    requires Inv(s) && Loses(s, v, w, k) && u < |s.threads| && j < s.rounds
    ensures FlagInv(Raised(s, v, w, k), u, j)
  {
    var o := u + Pow2(j);
    if PlaysAt(u, j) && o < |s.threads| {
      assert ThreadInv(s, v) && FlagInv(s, u, j);
      if v == o { OnlyThatFlag(v, w, k, u, j); }
      RaisedRecord(s, v, w, k, u, j, o);
    }
  }

  /** The champion sets the sense only when everybody has signalled. */
  lemma CrownInv(s: State, v: nat)
    requires Inv(s) && v < |s.threads| && InRounds(s, v) && s.threads[v].pc.SetChampion?
    ensures Inv(Next(s, v))
  {
    var r := Next(s, v);
    assert ThreadInv(s, v);
    forall u | 0 <= u < |r.threads| ensures ThreadInv(r, u) && CoverInv(r, u) {
      CrownThread(s, v, u);
    }
    forall u, k | 0 <= u < |r.threads| && 0 <= k < r.rounds ensures FlagInv(r, u, k) {
      CrownFlags(s, v, u, k);
    }
  }

  lemma CrownThread(s: State, v: nat, u: nat)
    requires Inv(s) && v < |s.threads| && InRounds(s, v) && s.threads[v].pc.SetChampion? && u < |s.threads|
    ensures ThreadInv(Next(s, v), u) && CoverInv(Next(s, v), u)
  {
    assert ThreadInv(s, v) && CoverInv(s, v) && ThreadInv(s, u);
    SignalledAwaits(s, u);
  }

  lemma CrownFlags(s: State, v: nat, u: nat, k: nat)
    requires Inv(s) && v < |s.threads| && InRounds(s, v) && s.threads[v].pc.SetChampion? && u < |s.threads|
    requires k < s.rounds
    ensures FlagInv(Next(s, v), u, k)
  {
    assert FlagInv(s, u, k);
  }

  /** Who sees the champion's sense has seen the champion of its own episode. */
  lemma LeaveInv(s: State, v: nat)
    requires Inv(s) && v < |s.threads| && InRounds(s, v) && s.threads[v].pc.AwaitChampion? && Enabled(s, v)
    ensures Inv(Next(s, v))
  {
    var r := Next(s, v);
    assert ThreadInv(s, v);
    RootNeverLoses(s.threads[v].round);
    forall u | 0 <= u < |r.threads| ensures Signalled(r.threads[u]) == Signalled(s.threads[u]) {
    }
    forall u | 0 <= u < |r.threads| ensures ThreadInv(r, u) && CoverInv(r, u) {
      assert ThreadInv(s, u) && CoverInv(s, u);
    }
    forall u, k | 0 <= u < |r.threads| && 0 <= k < r.rounds ensures FlagInv(r, u, k) {
      assert FlagInv(s, u, k);
    }
  }

  lemma NextInv(s: State, v: nat)
    requires Inv(s)
    ensures v < |s.threads| ==> InRounds(s, v)
    ensures Inv(Next(s, v))
  {
    if v < |s.threads| {
      assert ThreadInv(s, v);
      if Enabled(s, v) {
        match s.threads[v].pc {
          case Outside => EnterInv(s, v);
          case Walk => if MyRole(s, v).Loser? { LoseInv(s, v); } else { AdvanceInv(s, v); }
          case SetChampion => CrownInv(s, v);
          case AwaitChampion => LeaveInv(s, v);
        }
      }
    }
  }

  function Exec(s: State, schedule: seq<nat>): State
    requires Inv(s)
    decreases |schedule|
  {
    if schedule == [] then s
    else
      NextInv(s, schedule[0]);
      Exec(Next(s, schedule[0]), schedule[1..])
  }

  lemma {:induction false} ExecInv(s: State, schedule: seq<nat>)
    requires Inv(s)
    ensures Inv(Exec(s, schedule)) && |Exec(s, schedule).threads| == |s.threads|
    decreases |schedule|
  {
    if schedule == [] {
    } else {
      NextInv(s, schedule[0]);
      ExecInv(Next(s, schedule[0]), schedule[1..]);
    }
  }

  /** The state after a run from the start, where the invariant holds; every step keeps it. */
  function Run(s: State, schedule: seq<nat>): (r: State)
    requires Init(s)
    ensures Inv(r) && |r.threads| == |s.threads|
  {
    InitInv(s);
    ExecInv(s, schedule);
    Exec(s, schedule)
  }

  // ---------- main results ----------

  /** Barrier: in every run, whoever has left episode e left it after all threads had entered it. */
  lemma BarrierHolds(s: State, schedule: seq<nat>, u: nat, v: nat, e: nat)
    requires Init(s) && u < |s.threads| && v < |s.threads|
    ensures var r := Run(s, schedule);
      |r.threads| == |s.threads| && (r.threads[u].episode > e ==> Arrived(r.threads[v]) > e)
  {
    var r := Run(s, schedule);
    assert ThreadInv(r, u) && ThreadInv(r, v);
  }

  /** In every run a walking thread is inside its rounds array, at a round it wins, loses, or sits out. */
  lemma NeverWalksPast(s: State, schedule: seq<nat>, v: nat)
    requires Init(s) && v < |s.threads|
    ensures var r := Run(s, schedule);
      && |r.threads| == |s.threads|
      && (r.threads[v].pc.Walk? ==> r.threads[v].round < r.rounds && !MyRole(r, v).Dropout?)
      && (r.threads[v].pc.SetChampion? ==> v == 0)
  {
    var r := Run(s, schedule);
    assert ThreadInv(r, v);
    if r.threads[v].pc.Walk? {
      StillIn(v, r.threads[v].round);
    }
  }

  /** A thread spins in the loop only for a flag that an existing opponent is to raise. */
  lemma SpinsForFlag(s: State, v: nat, k: nat)
    requires Shape(s) && v < |s.threads| && InRounds(s, v) && s.threads[v].pc.Walk? && k == s.threads[v].round
    requires !Enabled(s, v)
    ensures PlaysAt(v, k) && v + Pow2(k) < |s.threads| && s.flags[v][k] != s.threads[v].sense
  {
    RootHasOpponents(|s.threads|, s.rounds, k);
  }

  /** A thread that has not signalled in this episode is walking, or it can step. */
  lemma NotSignalledCanStep(s: State, w: nat)
    requires Inv(s) && w < |s.threads| && Signalled(s.threads[w]) <= Current(s)
    ensures InRounds(s, w) && (!s.threads[w].pc.Walk? ==> Enabled(s, w))
  {
    assert ThreadInv(s, w);
    match s.threads[w].pc {
      case Walk =>
      case AwaitChampion => assert s.threads[w].episode + 1 == Current(s);
      case _ =>
    }
  }

  /** So a wait can be traced up the bracket to somebody who can step. */
  lemma {:induction false} OpponentCanStep(s: State, v: nat) returns (w: nat)
    requires Inv(s) && v < |s.threads| && s.threads[v].pc.Walk? && InRounds(s, v)
    ensures w < |s.threads| && InRounds(s, w) && Enabled(s, w)
    decreases |s.threads| - v
  {
    if Enabled(s, v) {
      w := v;
    } else {
      var k := s.threads[v].round;
      w := v + Pow2(k);
      SpinsForFlag(s, v, k);
      FlagUpIffSignalled(s, v, k);
      NotSignalledCanStep(s, w);
      if s.threads[w].pc.Walk? {
        w := OpponentCanStep(s, w);
      }
    }
  }

  /** No deadlock: in every reachable state some thread can step. */
  lemma SomeoneCanStep(s: State, schedule: seq<nat>) returns (w: nat)
    requires Init(s)
    ensures var r := Run(s, schedule);
      Shape(r) && w < |r.threads| && InRounds(r, w) && Enabled(r, w) && Next(r, w) != r
  {
    var r := Run(s, schedule);
    assert ThreadInv(r, 0);
    RootNeverLoses(r.threads[0].round);
    w := 0;
    if r.threads[0].pc.Walk? {
      w := OpponentCanStep(r, 0);
    }
    assert Next(r, w).threads[w] != r.threads[w];
  }

  // ---------- what a call costs ----------

  /** How often thread v gets an access done in a run; a look at a flag that is not up is none. */
  function Accesses(s: State, schedule: seq<nat>, v: nat): nat
    requires Inv(s)
    decreases |schedule|
  {
    if schedule == [] then 0
    else
      NextInv(s, schedule[0]);
      var r := Next(s, schedule[0]);
      One(schedule[0] == v && r != s) + Accesses(r, schedule[1..], v)
  }

  /** Entering, the rounds up to the one lost, waiting for the champion; the champion goes through them all. */
  function CallLength(rounds: nat, v: nat, lost: nat): nat {
    if v == 0 then rounds + 2 else lost + 3
  }

  function Rank(rounds: nat, t: Thread): nat {
    match t.pc
    case Outside => 0
    case Walk => 1 + t.round
    case SetChampion => 1 + rounds
    case AwaitChampion => 2 + t.round
  }

  function Position(rounds: nat, v: nat, lost: nat, t: Thread): nat {
    t.episode * CallLength(rounds, v, lost) + Rank(rounds, t)
  }

  lemma LosesOnlyOnce(v: nat, j: nat, k: nat)
    requires LosesAt(v, j) && LosesAt(v, k)
    ensures j == k
  {
    if j < k { OneFate(v, j, k); } else if k < j { OneFate(v, k, j); }
  }

  lemma EnabledPosition(s: State, v: nat, lost: nat)
    requires Inv(s) && v < |s.threads| && InRounds(s, v) && Enabled(s, v) && (v > 0 ==> LosesAt(v, lost))
    ensures |Next(s, v).threads| == |s.threads| && Next(s, v).threads[v] != s.threads[v]
    ensures Position(s.rounds, v, lost, Next(s, v).threads[v]) == Position(s.rounds, v, lost, s.threads[v]) + 1
  {
    assert ThreadInv(s, v);
    match s.threads[v].pc {
      case Outside =>
      case Walk =>
      case SetChampion => LeavePosition(s.rounds, v, lost, s.threads[v]);
      case AwaitChampion =>
        RootNeverLoses(s.threads[v].round);
        LosesOnlyOnce(v, lost, s.threads[v].round);
        LeavePosition(s.rounds, v, lost, s.threads[v]);
    }
  }

  lemma LeavePosition(rounds: nat, v: nat, lost: nat, t: Thread)
    requires Rank(rounds, t) + 1 == CallLength(rounds, v, lost)
    ensures Position(rounds, v, lost, Leave(t)) == Position(rounds, v, lost, t) + 1
  {
  }

  lemma StepPosition(s: State, a: nat, v: nat, lost: nat)
    requires Inv(s) && v < |s.threads| && (v > 0 ==> LosesAt(v, lost)) && (a < |s.threads| ==> InRounds(s, a))
    ensures |Next(s, a).threads| == |s.threads|
    ensures Position(s.rounds, v, lost, Next(s, a).threads[v])
         == Position(s.rounds, v, lost, s.threads[v]) + One(a == v && Next(s, a) != s)
  {
    if a == v && Enabled(s, v) { EnabledPosition(s, v, lost); }
  }

  lemma {:induction false} AccessesFrom(s: State, schedule: seq<nat>, v: nat, lost: nat)
    requires Inv(s) && v < |s.threads| && (v > 0 ==> LosesAt(v, lost))
    ensures |Exec(s, schedule).threads| == |s.threads| && Exec(s, schedule).rounds == s.rounds
    ensures Position(s.rounds, v, lost, Exec(s, schedule).threads[v])
         == Position(s.rounds, v, lost, s.threads[v]) + Accesses(s, schedule, v)
    decreases |schedule|
  {
    if schedule == [] {
    } else {
      NextInv(s, schedule[0]);
      StepPosition(s, schedule[0], v, lost);
      AccessesFrom(Next(s, schedule[0]), schedule[1..], v, lost);
    }
  }

  /**
  Nobody skips a round: in every run a thread has entered, gone through each round up to the one it loses, and
  awaited the champion in each barrier it has left; the champion has gone through all the rounds.
  */
  lemma AccessesPerBarrier(s: State, schedule: seq<nat>, v: nat, lost: nat)
    requires Init(s) && v < |s.threads| && (v > 0 ==> LosesAt(v, lost))
    ensures Inv(s) && |Run(s, schedule).threads| == |s.threads|
    ensures var t := Run(s, schedule).threads[v];
      Accesses(s, schedule, v) == t.episode * (if v == 0 then s.rounds + 2 else lost + 3) + Rank(s.rounds, t)
  {
    InitInv(s);
    AccessesFrom(s, schedule, v, lost);
  }
}
