/** Static and static-even loops: the compiled path, the path selected at run time, and the balanced split. */
module StaticSchedule {
  import opened Arith
  import opened LoopSpace

  /** What a thread does with a chunk it has been given. */
  method DoChunk(lower: int, upper: int, incr: int) returns (done: seq<int>)
    requires incr != 0
    ensures done == Iterations(lower, upper, incr)
  {
    done := [];
    var i := lower;
    while Within(i, upper, incr)
      invariant done + Iterations(i, upper, incr) == Iterations(lower, upper, incr)
      decreases if incr > 0 then upper - i else i - upper
    {
      done := done + [i];
      i := i + incr;
    }
  }

  // ---------- static-even: one block per thread ----------

  /** The block size: trip / team rounded up. */
  function Share(trip: int, team: int): int
    requires team > 0
  {
    trip / team + (if trip % team == 0 then 0 else 1)
  }

  /** It is the least number of iterations with which the team's blocks cover the loop. */
  lemma ShareIsLeast(trip: int, team: int, s: int)
    requires trip >= 0 && team >= 1
    ensures s >= Share(trip, team) <==> team * s >= trip
  {
    var q := trip / team;
    assert trip == team * q + trip % team;
    if s >= q {
      StepsMonotone(q, s, team);
      assert s * team == team * s && q * team == team * q;
      if s >= q + 1 { StepsMonotone(q + 1, s, team); }
    } else {
      StepsMonotone(s, q - 1, team);
      assert (q - 1) * team == team * q - team;
    }
  }

  lemma ShareCovers(trip: int, team: int)
    requires trip >= 1 && team >= 1
    ensures Share(trip, team) >= 1 && team * Share(trip, team) >= trip
  {
    var q := trip / team;
    assert trip == team * q + trip % team;
    DivBounds(trip, team);
    if trip % team == 0 {
      assert q >= 1;
    } else {
      assert team * (q + 1) == team * q + team;
    }
  }

  /** Where the blocks begin, cut off at the end of the loop. */
  function EvenCuts(trip: int, team: nat): (cuts: seq<int>)
    requires team > 0
    ensures |cuts| == team + 1
  {
    seq(team + 1, t => Min(t * Share(trip, team), trip))
  }

  /**
  A thread's block, before clipping: its share of a loop that has iterations, and nothing to do in one that
  has none.
  */
  method StaticEvenInit(tid: nat, team: nat, lower: int, upper: int, incr: int) returns (myLower: int, myUpper: int)
    requires tid < team && team >= 2 && incr != 0
    ensures Within(lower, upper, incr) ==>
      var s := Share(TripCount(lower, upper, incr), team);
      myLower == lower + (tid * s) * incr && myUpper == lower + ((tid + 1) * s - 1) * incr
    ensures !Within(lower, upper, incr) ==> Iterations(myLower, Clip(myUpper, upper, incr), incr) == []
  {
    var tripCount := CDiv(upper - lower, incr) + 1;
    TripsBounds(lower, upper, incr);
    var adjustment := if tripCount % team == 0 then -1 else 0;
    var blockSize := (CDiv(tripCount, team) + adjustment) * incr;
    var stride := (CDiv(tripCount, team) + adjustment + 1) * incr;
    myLower := lower + tid * stride;
    myUpper := myLower + blockSize;
    if Within(lower, upper, incr) {
      BlockBounds(tid, Share(tripCount, team), incr);
    } else {
      EmptyBlock(tid, CDiv(tripCount, team) + adjustment + 1, lower, upper, incr);
    }
  }

  /** Where the loop has no iteration the thread's block has none, even if its size comes out negative. */
  lemma EmptyBlock(tid: nat, s: int, lower: int, upper: int, incr: int)
    requires incr != 0 && !Within(lower, upper, incr)
    ensures var myLower := lower + tid * (s * incr);
      Iterations(myLower, Clip(myLower + (s - 1) * incr, upper, incr), incr) == []
  {
    var myLower := lower + tid * (s * incr);
    if s >= 1 {
      ScaleNonNegative(tid, s);
      BlockBounds(tid, s, incr);
      BeyondLoop(lower, upper, incr, tid * s, myLower + (s - 1) * incr);
    } else {
      StepsMonotone(s - 1, -1, incr);
    }
  }

  lemma BlockBounds(tid: nat, s: int, incr: int)
    ensures tid * (s * incr) == (tid * s) * incr
    ensures (tid * s) * incr + (s - 1) * incr == ((tid + 1) * s - 1) * incr
  {
    assert (tid + 1) * s - 1 == tid * s + (s - 1);
    assert (tid * s + (s - 1)) * incr == (tid * s) * incr + (s - 1) * incr;
  }

  /** What a block comes to once the caller has clipped it. */
  lemma EvenBlock(tid: nat, team: nat, lower: int, upper: int, incr: int)
    requires tid < team && incr != 0 && Within(lower, upper, incr)
    ensures var trip := Trips(lower, upper, incr); var s := Share(trip, team);
      Iterations(lower + (tid * s) * incr, Clip(lower + ((tid + 1) * s - 1) * incr, upper, incr), incr)
      == Values(lower, incr, EvenCuts(trip, team)[tid], EvenCuts(trip, team)[tid + 1])
  {
    var trip := Trips(lower, upper, incr);
    TripCountBounds(lower, upper, incr);
    ShareCovers(trip, team);
    var s := Share(trip, team);
    assert (tid + 1) * s == tid * s + s;
    ScaleNonNegative(tid, s);
    ClippedChunk(lower, upper, incr, tid * s, (tid + 1) * s);
  }

  /** A loop without iterations is cut nowhere. */
  lemma NoShares(team: nat, t: nat)
    requires t <= team && team >= 1
    ensures EvenCuts(0, team)[t] == 0
  {
    DivModUnique(0, team, 0, 0);
    assert t * Share(0, team) == 0;
  }

  lemma ScaleNonNegative(t: nat, s: int)
    requires s >= 0
    ensures t * s >= 0
  {
  }

  /** The compiled path: init, adjust the bound, do the chunk. */
  method CompiledStaticEven(tid: nat, team: nat, lower: int, upper: int, incr: int) returns (done: seq<int>)
    requires tid < team && team >= 2 && incr != 0
    ensures var cuts := EvenCuts(Trips(lower, upper, incr), team); done == Values(lower, incr, cuts[tid], cuts[tid + 1])
  {
    var myLower, myUpper := StaticEvenInit(tid, team, lower, upper, incr);
    done := DoChunk(myLower, Clip(myUpper, upper, incr), incr);
    BlockIsShare(tid, team, lower, upper, incr);
  }

  lemma BlockIsShare(tid: nat, team: nat, lower: int, upper: int, incr: int)
    requires tid < team && incr != 0
    ensures var cuts := EvenCuts(Trips(lower, upper, incr), team); var s := Share(TripCount(lower, upper, incr), team);
      Values(lower, incr, cuts[tid], cuts[tid + 1]) ==
      if Within(lower, upper, incr)
      then Iterations(lower + (tid * s) * incr, Clip(lower + ((tid + 1) * s - 1) * incr, upper, incr), incr)
      else []
  {
    if Within(lower, upper, incr) {
      EvenBlock(tid, team, lower, upper, incr);
    } else {
      NoShares(team, tid);
      NoShares(team, tid + 1);
    }
  }

  /** The path through schedule_next, which also says whether there is a block at all. */
  method NextStaticEven(tid: nat, team: nat, lower: int, upper: int, incr: int, scheduleCount: nat)
    returns (more: bool, myLower: int, myUpper: int)
    requires tid < team && team >= 2 && incr != 0
    ensures scheduleCount != 0 ==> !more
    ensures scheduleCount == 0 ==>
      more == (TripCount(lower, upper, incr) >= team || tid < TripCount(lower, upper, incr))
    ensures scheduleCount == 0 && Within(lower, upper, incr) ==>
      var s := Share(TripCount(lower, upper, incr), team);
      myLower == lower + (tid * s) * incr && myUpper == lower + ((tid + 1) * s - 1) * incr
    ensures scheduleCount == 0 && !Within(lower, upper, incr) ==>
      Iterations(myLower, Clip(myUpper, upper, incr), incr) == []
  {
    if scheduleCount != 0 { return false, 0, 0; }
    var tripCount := CDiv(upper - lower, incr) + 1;
    TripsBounds(lower, upper, incr);
    var adjustment := if tripCount % team == 0 then -1 else 0;
    var blockSize := (CDiv(tripCount, team) + adjustment) * incr;
    var stride := (CDiv(tripCount, team) + adjustment + 1) * incr;
    myLower := lower + tid * stride;
    myUpper := myLower + blockSize;
    if Within(lower, upper, incr) {
      BlockBounds(tid, Share(tripCount, team), incr);
    } else {
      EmptyBlock(tid, CDiv(tripCount, team) + adjustment + 1, lower, upper, incr);
    }
    if tripCount >= team {
      more := true;
    } else {
      more := tid <= tripCount - 1;
    }
  }

  method RuntimeStaticEven(tid: nat, team: nat, lower: int, upper: int, incr: int) returns (done: seq<int>)
    requires tid < team && team >= 2 && incr != 0
    ensures var cuts := EvenCuts(Trips(lower, upper, incr), team); done == Values(lower, incr, cuts[tid], cuts[tid + 1])
  {
    done := [];
    var more, myLower, myUpper := NextStaticEven(tid, team, lower, upper, incr, 0);
    if more {
      done := DoChunk(myLower, Clip(myUpper, upper, incr), incr);
      BlockIsShare(tid, team, lower, upper, incr);
    } else {
      NoBlock(tid, team, lower, upper, incr);
    }
    var again, _, _ := NextStaticEven(tid, team, lower, upper, incr, 1);
    assert !again;
  }

  /** A thread that is granted no block has no share of the loop. */
  lemma NoBlock(tid: nat, team: nat, lower: int, upper: int, incr: int)
    requires tid < team && incr != 0 && TripCount(lower, upper, incr) <= tid
    ensures var cuts := EvenCuts(Trips(lower, upper, incr), team); Values(lower, incr, cuts[tid], cuts[tid + 1]) == []
  {
    if Within(lower, upper, incr) {
      TripCountBounds(lower, upper, incr);
      SmallShare(TripCount(lower, upper, incr), team);
    } else {
      NoShares(team, tid);
      NoShares(team, tid + 1);
    }
  }

  /** With fewer iterations than threads every block has one iteration. */
  lemma SmallShare(trip: int, team: nat)
    requires 1 <= trip < team
    ensures Share(trip, team) == 1
  {
    DivModUnique(trip, team, 0, trip);
  }

  lemma EvenCutsAscend(trip: int, team: nat)
    requires trip >= 0 && team >= 1
    ensures Ascending(EvenCuts(trip, team)) && EvenCuts(trip, team)[0] == 0 && EvenCuts(trip, team)[team] == trip
  {
    var s, cuts := Share(trip, team), EvenCuts(trip, team);
    if trip == 0 {
      forall t | 0 <= t <= team ensures cuts[t] == 0 {
        NoShares(team, t);
      }
    } else {
      ShareCovers(trip, team);
      forall t | 0 <= t < team ensures cuts[t] <= cuts[t + 1] {
        assert (t + 1) * s == t * s + s;
      }
    }
  }

  /** Static-even: the threads' clipped blocks, in thread order, are the loop. */
  lemma StaticEvenCovers(lower: int, upper: int, incr: int, team: nat)
    requires team >= 1 && incr != 0
    ensures Pieces(lower, incr, EvenCuts(Trips(lower, upper, incr), team)) == Iterations(lower, upper, incr)
  {
    var trip := Trips(lower, upper, incr);
    TripsBounds(lower, upper, incr);
    EvenCutsAscend(trip, team);
    PiecesMakeWhole(lower, incr, EvenCuts(trip, team));
    WholeLoop(lower, upper, incr);
  }

  // ---------- static with a chunk size: chunks dealt out in turn ----------

  /** Chunks c, c + team, c + 2 * team and so on, each clipped to the loop. */
  function Dealt(lower: int, incr: int, trip: int, chunk: int, team: nat, c: int): seq<int>
    requires chunk >= 1 && team >= 1 && c >= 0
    decreases trip - c
  {
    if c * chunk >= trip then []
    else
      MulAtLeast(chunk, c);
      Values(lower, incr, c * chunk, Min((c + 1) * chunk, trip)) + Dealt(lower, incr, trip, chunk, team, c + team)
  }

  /** The bounds of chunk number c, before clipping. */
  function ChunkLow(lower: int, incr: int, chunk: int, c: int): int {
    lower + (c * chunk) * incr
  }

  function ChunkHigh(lower: int, incr: int, chunk: int, c: int): int {
    lower + ((c + 1) * chunk - 1) * incr
  }

  /** A thread's first chunk, before clipping, and the distance to its next. */
  method StaticInit(tid: nat, team: nat, lower: int, incr: int, chunk: int)
    returns (myLower: int, myUpper: int, pstride: int)
    requires chunk >= 1
    ensures myLower == ChunkLow(lower, incr, chunk, tid) && myUpper == ChunkHigh(lower, incr, chunk, tid)
    ensures pstride == (team * chunk) * incr
  {
    var blockSize := (chunk - 1) * incr;
    var stride := chunk * incr;
    myLower := lower + tid * stride;
    myUpper := myLower + blockSize;
    pstride := stride * team;
    BlockBounds(tid, chunk, incr);
    assert stride * team == (team * chunk) * incr by { ThreeFactors(team, chunk, incr); }
  }

  lemma ThreeFactors(a: int, b: int, c: int)
    ensures (b * c) * a == (a * b) * c
  {
  }

  /** Moving a chunk on by one round of the team. */
  lemma NextRound(c: int, team: nat, chunk: int, lower: int, incr: int)
    ensures ChunkLow(lower, incr, chunk, c) + (team * chunk) * incr == ChunkLow(lower, incr, chunk, c + team)
    ensures ChunkHigh(lower, incr, chunk, c) + (team * chunk) * incr == ChunkHigh(lower, incr, chunk, c + team)
  {
    assert (c + team) * chunk == c * chunk + team * chunk;
    assert (c * chunk + team * chunk) * incr == (c * chunk) * incr + (team * chunk) * incr;
    assert (c + team + 1) * chunk - 1 == ((c + 1) * chunk - 1) + team * chunk;
    assert (((c + 1) * chunk - 1) + team * chunk) * incr == ((c + 1) * chunk - 1) * incr + (team * chunk) * incr;
  }

  /** What doing chunk number c, clipped, comes to. */
  function ChunkDone(lower: int, upper: int, incr: int, chunk: int, c: int): seq<int>
    requires incr != 0
  {
    Iterations(ChunkLow(lower, incr, chunk, c), Clip(ChunkHigh(lower, incr, chunk, c), upper, incr), incr)
  }

  /**
  There is a chunk exactly while its first iteration is one of the loop's, and clipped it is the chunk of the
  deal.
  */
  lemma ChunkOfDeal(lower: int, upper: int, incr: int, chunk: int, c: int)
    requires incr != 0 && chunk >= 1 && c >= 0
    ensures Within(ChunkLow(lower, incr, chunk, c), upper, incr) <==> c * chunk < Trips(lower, upper, incr)
    ensures ChunkDone(lower, upper, incr, chunk, c)
            == Values(lower, incr, c * chunk, Min((c + 1) * chunk, Trips(lower, upper, incr)))
  {
    ScaleNonNegative(c, chunk);
    WithinIffBelowTrips(lower, upper, incr, c * chunk);
    assert (c + 1) * chunk == c * chunk + chunk;
    ClippedChunk(lower, upper, incr, c * chunk, (c + 1) * chunk);
  }

  /** One chunk done, if there is one, the rest of the deal goes on from the next round. */
  lemma DealStep(lower: int, upper: int, incr: int, chunk: int, team: nat, c: int)
    requires incr != 0 && chunk >= 1 && team >= 1 && c >= 0
    ensures var trip := Trips(lower, upper, incr);
      && (c * chunk < trip ==> c < trip)
      && Dealt(lower, incr, trip, chunk, team, c)
         == ChunkDone(lower, upper, incr, chunk, c) + Dealt(lower, incr, trip, chunk, team, c + team)
      && (c * chunk >= trip ==> Dealt(lower, incr, trip, chunk, team, c) == [])
  {
    ChunkOfDeal(lower, upper, incr, chunk, c);
    ChunkStarts(c, team, chunk);
    ScaleNonNegative(c, chunk);
    if c * chunk < Trips(lower, upper, incr) {
      MulAtLeast(chunk, c);
    }
  }

  /** The compiled path: while there is a chunk, clip it, do it, move on by the stride. */
  method CompiledStatic(tid: nat, team: nat, lower: int, upper: int, incr: int, chunk: int) returns (done: seq<int>)
    requires tid < team && incr != 0 && chunk >= 1
    ensures done == Dealt(lower, incr, Trips(lower, upper, incr), chunk, team, tid)
  {
    ghost var trip, c: int := Trips(lower, upper, incr), tid;
    var chunkLower, chunkUpper, pstride := StaticInit(tid, team, lower, incr, chunk);
    done := [];
    while Within(chunkLower, upper, incr)
      invariant c >= 0
      invariant chunkLower == ChunkLow(lower, incr, chunk, c) && chunkUpper == ChunkHigh(lower, incr, chunk, c)
      invariant done + Dealt(lower, incr, trip, chunk, team, c) == Dealt(lower, incr, trip, chunk, team, tid)
      decreases trip - c
    {
      ChunkOfDeal(lower, upper, incr, chunk, c);
      DealStep(lower, upper, incr, chunk, team, c);
      var now := DoChunk(chunkLower, Clip(chunkUpper, upper, incr), incr);
      Append(done, now, Dealt(lower, incr, trip, chunk, team, c + team));
      done := done + now;
      NextRound(c, team, chunk, lower, incr);
      chunkUpper := chunkUpper + pstride;
      chunkLower := chunkLower + pstride;
      c := c + team;
    }
    ChunkOfDeal(lower, upper, incr, chunk, c);
    DealStep(lower, upper, incr, chunk, team, c);
  }

  lemma Append(a: seq<int>, b: seq<int>, c: seq<int>)
    ensures a + (b + c) == (a + b) + c
  {
  }

  /** The number of the chunk that is thread tid's k-th. */
  function Turn(tid: nat, team: nat, k: nat): nat {
    tid + k * team
  }

  lemma NextTurn(tid: nat, team: nat, k: nat)
    ensures Turn(tid, team, k + 1) == Turn(tid, team, k) + team
  {
  }

  /**
  The path through schedule_next: the chunk number is computed from how often the thread has been there.  The chunk
  of a loop that has no iterations, should the trip count say that there is one, is empty.
  */
  method NextStatic(tid: nat, team: nat, lower: int, upper: int, incr: int, chunk: int, scheduleCount: nat)
    returns (more: bool, myLower: int, myUpper: int, newCount: nat)
    requires tid < team && incr != 0 && chunk >= 1
    ensures var c := Turn(tid, team, scheduleCount);
      && more == (c * chunk < TripCount(lower, upper, incr))
      && (Within(lower, upper, incr) ==> more == Within(ChunkLow(lower, incr, chunk, c), upper, incr))
      && newCount == (if more then scheduleCount + 1 else scheduleCount)
      && (more ==> myLower == ChunkLow(lower, incr, chunk, c) && myUpper == ChunkHigh(lower, incr, chunk, c))
  {
    var tripCount := CDiv(upper - lower, incr) + 1;
    var blockSize := (chunk - 1) * incr;
    var stride := chunk * incr;
    var myTrip := scheduleCount * chunk * team + tid * chunk + 1;
    DealIndex(tid, team, chunk, incr, scheduleCount);
    ChunkOfDeal(lower, upper, incr, chunk, tid + scheduleCount * team);
    if myTrip > tripCount {
      return false, 0, 0, scheduleCount;
    }
    var adjustment := scheduleCount * stride * team;
    newCount := scheduleCount + 1;
    myLower := lower + tid * stride + adjustment;
    myUpper := myLower + blockSize;
    more := true;
    BlockBounds(tid + scheduleCount * team, chunk, incr);
  }

  lemma DealIndex(tid: nat, team: nat, chunk: int, incr: int, k: nat)
    ensures k * chunk * team + tid * chunk == (tid + k * team) * chunk
    ensures tid * (chunk * incr) + k * (chunk * incr) * team == (tid + k * team) * (chunk * incr)
  {
    assert k * chunk * team == (k * team) * chunk;
    assert k * (chunk * incr) * team == (k * team) * (chunk * incr);
  }

  /** The path selected at run time hands each thread the same iterations as the compiled path. */
  method RuntimeStatic(tid: nat, team: nat, lower: int, upper: int, incr: int, chunk: int) returns (done: seq<int>)
    requires tid < team && incr != 0 && chunk >= 1
    ensures done == Dealt(lower, incr, Trips(lower, upper, incr), chunk, team, tid)
  {
    ghost var trip, tripCount := Trips(lower, upper, incr), TripCount(lower, upper, incr);
    ghost var k: nat, c: nat := 0, tid;
    TripsBounds(lower, upper, incr);
    done := [];
    var more, myLower, myUpper, count := NextStatic(tid, team, lower, upper, incr, chunk, 0);
    while more
      invariant c == Turn(tid, team, k)
      invariant more == (c * chunk < tripCount)
      invariant count == if more then k + 1 else k
      invariant more ==> myLower == ChunkLow(lower, incr, chunk, c) && myUpper == ChunkHigh(lower, incr, chunk, c)
      invariant done + Dealt(lower, incr, trip, chunk, team, c) == Dealt(lower, incr, trip, chunk, team, tid)
      decreases tripCount - c
    {
      DealStep(lower, upper, incr, chunk, team, c);
      NextTurn(tid, team, k);
      MulAtLeast(chunk, c);
      var now := DoChunk(myLower, Clip(myUpper, upper, incr), incr);
      Append(done, now, Dealt(lower, incr, trip, chunk, team, c + team));
      done := done + now;
      k, c := k + 1, c + team;
      more, myLower, myUpper, count := NextStatic(tid, team, lower, upper, incr, chunk, count);
    }
    ScaleNonNegative(c, chunk);
    DealStep(lower, upper, incr, chunk, team, c);
  }

  // ---------- the deal is an exact cover ----------

  lemma StepInjective(i: int, j: int, lower: int, incr: int)
    requires incr != 0
    ensures lower + i * incr == lower + j * incr <==> i == j
  {
    if i < j {
      StepsMonotone(i + 1, j, incr);
      assert (i + 1) * incr == i * incr + incr;
    } else if j < i {
      StepsMonotone(j + 1, i, incr);
      assert (j + 1) * incr == j * incr + incr;
    }
  }

  lemma InValues(lower: int, incr: int, from: int, to: int, i: int)
    requires incr != 0
    ensures lower + i * incr in Values(lower, incr, from, to) <==> from <= i < to
  {
    var v := Values(lower, incr, from, to);
    if from <= i < to {
      assert v[i - from] == lower + (from + (i - from)) * incr;
    }
    if lower + i * incr in v {
      var k :| 0 <= k < |v| && v[k] == lower + i * incr;
      StepInjective(i, from + k, lower, incr);
    }
  }

  lemma ModTeam(d: int, team: nat)
    requires team >= 1
    ensures (d == 0 || (d >= team && (d - team) % team == 0)) <==> (d >= 0 && d % team == 0)
  {
    ModShift(d - team, team, team);
    if 0 <= d < team {
      ModSmall(d, team);
    } else if d >= team {
      DivModUnique(d, team, (d - team) / team + 1, (d - team) % team);
    }
    if d == 0 { ModSmall(0, team); }
  }

  lemma {:induction false} DealtHolds(lower: int, incr: int, trip: int, chunk: int, team: nat, c: int, i: int)
    requires incr != 0 && chunk >= 1 && team >= 1 && c >= 0 && 0 <= i < trip
    ensures lower + i * incr in Dealt(lower, incr, trip, chunk, team, c)
        <==> i / chunk >= c && (i / chunk - c) % team == 0
    decreases trip - c
  {
    ChunkNumber(i, chunk, c);
    if c * chunk >= trip {
    } else {
      MulAtLeast(chunk, c);
      DealtHolds(lower, incr, trip, chunk, team, c + team, i);
      InValues(lower, incr, c * chunk, Min((c + 1) * chunk, trip), i);
      ModTeam(i / chunk - c, team);
    }
  }

  /** Static: every iteration is done by exactly one thread, the one whose turn its chunk is. */
  lemma StaticCovers(lower: int, upper: int, incr: int, chunk: int, team: nat, i: int, tid: nat)
    requires incr != 0 && chunk >= 1 && tid < team && 0 <= i < Trips(lower, upper, incr)
    ensures lower + i * incr in Dealt(lower, incr, Trips(lower, upper, incr), chunk, team, tid)
            <==> i / chunk % team == tid
  {
    DivBounds(i, chunk);
    DealtHolds(lower, incr, Trips(lower, upper, incr), chunk, team, tid, i);
    TurnOf(i / chunk, team, tid);
  }

  lemma TurnOf(q: int, team: nat, tid: nat)
    requires q >= 0 && tid < team
    ensures (q >= tid && (q - tid) % team == 0) <==> q % team == tid
  {
    if q % team == tid {
      assert q == (q / team) * team + tid;
      DivBounds(q, team);
      DivModUnique(q - tid, team, q / team, 0);
    } else if (q - tid) % team == 0 {
      assert q - tid == ((q - tid) / team) * team;
      DivModUnique(q, team, (q - tid) / team, tid);
    }
  }

  /** In the order of the loop, and none twice. */
  predicate InLoopOrder(v: seq<int>, incr: int) {
    forall a, b :: 0 <= a < b < |v| ==> if incr > 0 then v[a] < v[b] else v[a] > v[b]
  }

  /** Nothing in v comes before iteration x, and everything comes before iteration y. */
  predicate Between(v: seq<int>, incr: int, x: int, y: int) {
    forall a :: 0 <= a < |v| ==> if incr > 0 then x <= v[a] < y else x >= v[a] > y
  }

  lemma ValuesInOrder(lower: int, incr: int, from: int, to: int)
    requires incr != 0
    ensures InLoopOrder(Values(lower, incr, from, to), incr)
    ensures Between(Values(lower, incr, from, to), incr, lower + from * incr, lower + to * incr)
  {
    var v := Values(lower, incr, from, to);
    forall a, b | 0 <= a < b < |v| ensures if incr > 0 then v[a] < v[b] else v[a] > v[b] {
      StepsMonotone(from + a, from + b, incr);
      StepInjective(from + a, from + b, lower, incr);
    }
    forall a | 0 <= a < |v|
      ensures if incr > 0 then lower + from * incr <= v[a] < lower + to * incr
              else lower + from * incr >= v[a] > lower + to * incr
    {
      StepsMonotone(from, from + a, incr);
      StepsMonotone(from + a, to, incr);
      StepInjective(from + a, to, lower, incr);
    }
  }

  /** Each thread goes through its share in loop order, doing nothing twice and nothing outside the loop. */
  lemma {:induction false} DealtInOrder(lower: int, incr: int, trip: int, chunk: int, team: nat, c: int)
    requires incr != 0 && chunk >= 1 && team >= 1 && c >= 0
    ensures InLoopOrder(Dealt(lower, incr, trip, chunk, team, c), incr)
    ensures Between(Dealt(lower, incr, trip, chunk, team, c), incr, lower + (c * chunk) * incr, lower + trip * incr)
    decreases trip - c
  {
    if c * chunk >= trip {
    } else {
      MulAtLeast(chunk, c);
      DealtInOrder(lower, incr, trip, chunk, team, c + team);
      ChunkStarts(c, team, chunk);
      var x, m, z := c * chunk, Min((c + 1) * chunk, trip), (c + team) * chunk;
      ValuesInOrder(lower, incr, x, m);
      JoinInOrder(Values(lower, incr, x, m), Dealt(lower, incr, trip, chunk, team, c + team), lower, incr, x, m, z,
          trip);
    }
  }

  lemma ChunkStarts(c: int, team: nat, chunk: int)
    requires chunk >= 1 && team >= 1
    ensures c * chunk < (c + 1) * chunk <= (c + team) * chunk
  {
    assert (c + 1) * chunk == c * chunk + chunk;
    StepsMonotone(c + 1, c + team, chunk);
  }

  lemma JoinInOrder(head: seq<int>, tail: seq<int>, lower: int, incr: int, a: int, b: int, c: int, d: int)
    requires incr != 0 && a <= b <= c && b <= d
    requires InLoopOrder(head, incr) && Between(head, incr, lower + a * incr, lower + b * incr)
    requires InLoopOrder(tail, incr) && Between(tail, incr, lower + c * incr, lower + d * incr)
    ensures InLoopOrder(head + tail, incr) && Between(head + tail, incr, lower + a * incr, lower + d * incr)
  {
    StepsMonotone(a, b, incr);
    StepsMonotone(b, c, incr);
    StepsMonotone(b, d, incr);
  }

  // ---------- the balanced split ----------

  /** Where the balanced blocks begin: the first trip % team threads get one iteration more. */
  function BalancedCut(trip: int, team: nat, t: int): int
    requires team > 0
  {
    if trip > team then t * (trip / team) + Min(t, trip % team) else Min(t, trip)
  }

  function BalancedCuts(trip: int, team: nat): (cuts: seq<int>)
    requires team > 0
    ensures |cuts| == team + 1
  {
    seq(team + 1, t => BalancedCut(trip, team, t))
  }

  /** A thread's block; for a loop that counts up. */
  method BalancedInit(tid: nat, team: nat, lower: int, upper: int, incr: int) returns (myLower: int, myUpper: int)
    requires tid < team && team >= 2 && incr > 0
    ensures var trip := Trips(lower, upper, incr);
      Iterations(myLower, Clip(myUpper, upper, incr), incr)
      == Values(lower, incr, BalancedCut(trip, team, tid), BalancedCut(trip, team, tid + 1))
  {
    var diff := upper - lower + 1;
    var numIter := if CRem(diff, incr) > 0 then CDiv(diff, incr) + 1 else CDiv(diff, incr);
    CountedUp(lower, upper, incr);
    var remainder, myChunk := 0, 1;
    if numIter > team {
      remainder := numIter % team;
      myChunk := numIter / team;
      AtLeastOne(numIter, team);
    }
    BalancedResult(lower, upper, incr, team, tid, remainder, myChunk);
    if tid < remainder {
      var blockSize := (myChunk + 1) * incr;
      myLower := lower + tid * blockSize;
      myUpper := myLower + blockSize - incr;
    } else {
      var blockSize := myChunk * incr;
      myLower := lower + tid * blockSize + remainder * incr;
      myUpper := myLower + blockSize - incr;
    }
  }

  /** The quotient rounded up counts the iterations of a loop that has some, and comes out negative or 0 otherwise. */
  lemma CountedUp(lower: int, upper: int, incr: int)
    requires incr > 0
    ensures var diff := upper - lower + 1;
      var numIter := if CRem(diff, incr) > 0 then CDiv(diff, incr) + 1 else CDiv(diff, incr);
      if lower <= upper then numIter == Trips(lower, upper, incr) else numIter <= 0 == Trips(lower, upper, incr)
  {
    var diff := upper - lower + 1;
    if lower <= upper {
      assert CRem(diff, incr) == diff % incr by {
        assert diff == (diff / incr) * incr + diff % incr;
      }
      RoundUp(upper - lower, incr);
    } else {
      DivBounds(-diff, incr);
      assert CDiv(diff, incr) == -(-diff / incr);
      NegMul(-diff / incr, incr);
    }
  }

  /** The iterations of the block that starts at `from` and is `blockSize` long, both in loop values. */
  function BlockAt(from: int, blockSize: int, upper: int, incr: int): seq<int>
    requires incr != 0
  {
    Iterations(from, Clip(from + blockSize - incr, upper, incr), incr)
  }

  lemma BalancedResult(lower: int, upper: int, incr: int, team: nat, tid: nat, remainder: int, myChunk: int)
    requires tid < team && incr > 0
    requires var trip := Trips(lower, upper, incr);
      if trip > team then remainder == trip % team && myChunk == trip / team else remainder == 0 && myChunk == 1
    ensures var trip := Trips(lower, upper, incr);
      var share := Values(lower, incr, BalancedCut(trip, team, tid), BalancedCut(trip, team, tid + 1));
      && (tid < remainder ==>
            BlockAt(lower + tid * ((myChunk + 1) * incr), (myChunk + 1) * incr, upper, incr) == share)
      && (tid >= remainder ==>
            BlockAt(lower + tid * (myChunk * incr) + remainder * incr, myChunk * incr, upper, incr) == share)
  {
    var trip := Trips(lower, upper, incr);
    TripsBounds(lower, upper, incr);
    if trip > team { AtLeastOne(trip, team); }
    BalancedIs(trip, team, tid, remainder, myChunk);
    if tid < remainder {
      BalancedBlock(lower, upper, incr, tid, myChunk + 1, 0);
    } else {
      BalancedBlock(lower, upper, incr, tid, myChunk, remainder);
    }
  }

  /** A block of `size` iterations after tid of the same size and r more. */
  lemma BalancedBlock(lower: int, upper: int, incr: int, tid: nat, size: int, r: int)
    requires incr > 0 && size >= 1 && r >= 0
    ensures var a, b := tid * size + r, (tid + 1) * size + r;
      BlockAt(lower + tid * (size * incr) + r * incr, size * incr, upper, incr)
      == Values(lower, incr, a, Min(b, Trips(lower, upper, incr)))
  {
    var a := tid * size + r;
    ScaleNonNegative(tid, size);
    assert (tid + 1) * size + r == a + size;
    assert tid * (size * incr) + r * incr == a * incr by {
      ThreeFactors(tid, size, incr);
      assert (tid * size + r) * incr == (tid * size) * incr + r * incr;
    }
    assert a * incr + size * incr - incr == (a + size - 1) * incr;
    ClippedChunk(lower, upper, incr, a, a + size);
  }

  /** What the code's remainder and my_chunk make of the thread's number. */
  lemma BalancedIs(trip: int, team: nat, tid: nat, remainder: int, myChunk: int)
    requires trip >= 0 && tid < team
    requires if trip > team then remainder == trip % team && myChunk == trip / team else remainder == 0 && myChunk == 1
    ensures tid < remainder ==>
      && BalancedCut(trip, team, tid) == tid * (myChunk + 1)
      && BalancedCut(trip, team, tid + 1) == Min((tid + 1) * (myChunk + 1), trip)
    ensures tid >= remainder ==>
      && Min(BalancedCut(trip, team, tid), trip) == Min(tid * myChunk + remainder, trip)
      && BalancedCut(trip, team, tid + 1) == Min((tid + 1) * myChunk + remainder, trip)
  {
    BalancedEnds(trip, team, tid);
    if trip > team {
      OneMoreEach(tid, myChunk);
    } else {
      TimesOne(tid, myChunk);
    }
  }

  lemma OneMoreEach(tid: nat, size: int)
    ensures tid * (size + 1) == tid * size + tid
    ensures (tid + 1) * (size + 1) == (tid + 1) * size + (tid + 1)
  {
  }

  lemma TimesOne(tid: nat, size: int)
    requires size == 1
    ensures tid * size == tid && (tid + 1) * size == tid + 1
  {
  }

  /** Rounding (d + 1) / incr up is rounding d / incr down and adding one. */
  lemma RoundUp(d: int, incr: int)
    requires d >= 0 && incr > 0
    ensures (if (d + 1) % incr > 0 then (d + 1) / incr + 1 else (d + 1) / incr) == d / incr + 1
  {
    var q, r := d / incr, d % incr;
    assert d == q * incr + r;
    if r + 1 < incr {
      DivModUnique(d + 1, incr, q, r + 1);
    } else {
      assert (q + 1) * incr == q * incr + incr;
      DivModUnique(d + 1, incr, q + 1, 0);
    }
  }

  lemma AtLeastOne(n: int, team: nat)
    requires n > team >= 1
    ensures n / team >= 1
  {
    DivBounds(n, team);
  }

  /** With more iterations than threads the last block ends where the loop does. */
  lemma BalancedEnds(trip: int, team: nat, t: nat)
    requires trip >= 0 && t < team
    ensures BalancedCut(trip, team, 0) == 0 && BalancedCut(trip, team, team) == trip
    ensures 0 <= BalancedCut(trip, team, t) <= BalancedCut(trip, team, t + 1) <= trip
    ensures trip > team ==>
      BalancedCut(trip, team, t + 1) == BalancedCut(trip, team, t) + trip / team + (if t < trip % team then 1 else 0)
  {
    if trip > team {
      var q, r := trip / team, trip % team;
      assert trip == team * q + r;
      AtLeastOne(trip, team);
      assert (t + 1) * q == t * q + q;
      ScaleNonNegative(t, q);
      StepsMonotone(t + 1, team, q);
    }
  }

  /** Balanced: the blocks in thread order are the loop ... */
  lemma BalancedCovers(lower: int, upper: int, incr: int, team: nat)
    requires team >= 1 && incr > 0
    ensures Pieces(lower, incr, BalancedCuts(Trips(lower, upper, incr), team)) == Iterations(lower, upper, incr)
  {
    var trip := Trips(lower, upper, incr);
    TripsBounds(lower, upper, incr);
    BalancedAscend(trip, team);
    PiecesMakeWhole(lower, incr, BalancedCuts(trip, team));
    WholeLoop(lower, upper, incr);
  }

  lemma BalancedAscend(trip: int, team: nat)
    requires trip >= 0 && team >= 1
    ensures Ascending(BalancedCuts(trip, team)) && BalancedCuts(trip, team)[0] == 0
    ensures BalancedCuts(trip, team)[team] == trip
  {
    var cuts := BalancedCuts(trip, team);
    BalancedEnds(trip, team, 0);
    forall t | 0 <= t < |cuts| - 1 ensures cuts[t] <= cuts[t + 1] {
      BalancedEnds(trip, team, t);
    }
  }

  /** ... and no two threads' shares differ by more than one iteration. */
  lemma BalancedWithinOne(trip: int, team: nat, t: nat, u: nat)
    requires trip >= 0 && t < team && u < team
    ensures -1 <= (BalancedCut(trip, team, t + 1) - BalancedCut(trip, team, t))
                - (BalancedCut(trip, team, u + 1) - BalancedCut(trip, team, u)) <= 1
  {
    BalancedEnds(trip, team, t);
    BalancedEnds(trip, team, u);
  }
}
