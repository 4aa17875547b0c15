/**
Ordered loops: whatever the schedule, the ordered regions run one at a time in iteration order.  A chunk of the
loop is passed from thread to thread by a count of chunks finished; each thread counts down the iterations of its
chunk, as many as were asked for even where the loop ends earlier.  A wait on the ordered condition is one step.
*/
module OrderedLoop {
  import opened Arith
  import opened LoopSpace
  import opened StaticSchedule
  import opened DynamicSchedule

  datatype Pc = Fetch | Loop | Wait | Region | EndRegion | Done

  /** `chunk` is the thread's ordered_count, `at` the iteration number it is at, `fetched` its schedule_count. */
  datatype Thread = Thread(pc: Pc, chunk: nat, at: int, rest: int, fetched: nat)

  /**
  `cuts` are the bounds of the chunks before clipping.  Chunks are dealt out in turn (static schedules) or taken from
  a shared counter (dynamic ones).  `log` lists the regions run and `takers` who took which chunk; both are for the
  proof only.
  */
  datatype State = State(
    cuts: seq<int>, trip: int, dealt: bool, next: nat, orderedCount: nat, threads: seq<Thread>,
    log: seq<int>, takers: seq<nat>)

  function Chunks(s: State): int {
    |s.cuts| - 1
  }

  /** Chunks that follow one another, none empty before clipping, and together they reach the end of the loop. */
  predicate ValidPlan(cuts: seq<int>, trip: int) {
    && |cuts| >= 1 && cuts[0] == 0 && trip >= 0
    && (forall c, d :: 0 <= c < d < |cuts| ==> cuts[c] < cuts[d])
    && cuts[|cuts| - 1] >= trip
  }

  /** Only the last chunk that has iterations is short: it ends where the loop does, and all before it are whole. */
  lemma OnlyLastIsShort(cuts: seq<int>, trip: int, c: nat, d: nat)
    requires ValidPlan(cuts, trip) && c < d < |cuts| - 1 && cuts[d] < trip
    ensures Min(cuts[c + 1], trip) == cuts[c + 1]
  {
    assert c + 1 == d || cuts[c + 1] < cuts[d];
  }

  predicate Shape(s: State) {
    ValidPlan(s.cuts, s.trip) && |s.threads| >= 1
  }

  predicate Init(s: State) {
    && Shape(s) && s.next == 0 && s.orderedCount == 0 && s.log == [] && s.takers == []
    && forall t :: 0 <= t < |s.threads| ==> s.threads[t] == Thread(Fetch, 0, 0, 0, 0)
  }

  /** Where chunk c ends once it has been clipped; one that begins beyond the loop ends where it begins. */
  function End(s: State, c: nat): int
    requires c + 1 < |s.cuts|
  {
    if s.cuts[c] < s.trip then Min(s.cuts[c + 1], s.trip) else s.cuts[c]
  }

  /** The chunk thread t would get now. */
  function NextChunk(s: State, t: nat): nat
    requires t < |s.threads|
  {
    if s.dealt then t + s.threads[t].fetched * |s.threads| else s.next
  }

  predicate Enabled(s: State, t: nat)
    requires t < |s.threads|
  {
    var th := s.threads[t];
    !th.pc.Done? && (th.pc.Wait? ==> s.orderedCount == th.chunk)
  }

  /** The next step of thread t: schedule_next, __ompc_ordered, the region, __ompc_end_ordered. */
  function Next(s: State, t: nat): State {
    if t >= |s.threads| || !Enabled(s, t) then s
    else
      var th := s.threads[t];
      match th.pc
      case Fetch =>
        var c := NextChunk(s, t);
        if c >= Chunks(s) then s.(threads := s.threads[t := th.(pc := Done)])
        else
          s.(threads := s.threads[t := Thread(Loop, c, s.cuts[c], s.cuts[c + 1] - s.cuts[c], th.fetched + 1)],
             next := if s.dealt then s.next else s.next + 1,
             takers := if s.dealt then s.takers else s.takers + [t])
      case Loop =>
        var inside := th.chunk < Chunks(s) && th.at < End(s, th.chunk);
        s.(threads := s.threads[t := th.(pc := if inside then Wait else Fetch)])
      case Wait => s.(threads := s.threads[t := th.(pc := Region)])
      case Region => s.(threads := s.threads[t := th.(pc := EndRegion)], log := s.log + [th.at])
      case EndRegion =>
        s.(threads := s.threads[t := th.(pc := Loop, at := th.at + 1, rest := th.rest - 1)],
           orderedCount := if th.rest - 1 > 0 then s.orderedCount else s.orderedCount + 1)
  }

  // ---------- the invariant ----------

  predicate Holds(th: Thread, c: nat) {
    !th.pc.Fetch? && !th.pc.Done? && th.chunk == c
  }

  /** Has chunk c been handed out? */
  predicate Fetched(s: State, c: nat)
    requires |s.threads| >= 1
  {
    if s.dealt then c / |s.threads| < s.threads[c % |s.threads|].fetched else c < s.next
  }

  /** Who has it, or had it. */
  function Taker(s: State, c: nat): nat
    requires |s.threads| >= 1 && (!s.dealt ==> c < |s.takers|)
  {
    if s.dealt then c % |s.threads| else s.takers[c]
  }

  /** Where a thread is within its chunk, against the chunk whose turn it is. */
  predicate ThreadInv(s: State, t: nat)
    requires Shape(s) && t < |s.threads|
  {
    var th := s.threads[t];
    && (!th.pc.Fetch? && !th.pc.Done? ==>
          && th.chunk < Chunks(s) && s.cuts[th.chunk] <= th.at <= End(s, th.chunk)
          && th.rest == s.cuts[th.chunk + 1] - th.at
          && Fetched(s, th.chunk)
          && (if s.dealt then th.fetched >= 1 && th.chunk == t + (th.fetched - 1) * |s.threads|
              else th.chunk < |s.takers| && s.takers[th.chunk] == t)
          && (th.chunk > s.orderedCount ==> th.at == s.cuts[th.chunk] && (th.pc.Loop? || th.pc.Wait?))
          && (th.chunk == s.orderedCount ==> th.rest > 0 && |s.log| == if th.pc.EndRegion? then th.at + 1 else th.at)
          && (th.chunk < s.orderedCount ==> th.pc.Loop? && th.at == End(s, th.chunk)))
    && (th.pc.Wait? || th.pc.Region? || th.pc.EndRegion? ==> th.at < End(s, th.chunk))
    && (th.pc.Region? || th.pc.EndRegion? ==> th.chunk == s.orderedCount)
    && (th.pc.Done? ==> NextChunk(s, t) >= Chunks(s))
  }

  /** A chunk handed out is being worked on, or is finished, or begins beyond the loop. */
  predicate ChunkInv(s: State, c: nat)
    requires Shape(s) && c < Chunks(s) && (!s.dealt ==> |s.takers| == s.next)
  {
    && (c < s.orderedCount ==> Fetched(s, c))
    && (Fetched(s, c) ==>
          || (Taker(s, c) < |s.threads| && Holds(s.threads[Taker(s, c)], c))
          || c < s.orderedCount
          || (c == s.orderedCount && |s.log| == s.trip < s.cuts[c + 1])
          || (c > s.orderedCount && s.cuts[c] >= s.trip))
  }

  predicate Inv(s: State) {
    && Shape(s) && (!s.dealt ==> |s.takers| == s.next)
    && (forall t :: 0 <= t < |s.threads| ==> ThreadInv(s, t))
    && (forall c :: 0 <= c < Chunks(s) ==> ChunkInv(s, c))
    && s.orderedCount <= Chunks(s) && |s.log| <= s.trip
    && (s.orderedCount < Chunks(s) && !Fetched(s, s.orderedCount) ==> |s.log| == s.cuts[s.orderedCount])
    && (s.orderedCount == Chunks(s) ==> |s.log| == s.trip)
    && (forall i :: 0 <= i < |s.log| ==> s.log[i] == i)
  }

  lemma InitInv(s: State)
    requires Init(s)
    ensures Inv(s)
  {
    forall c | 0 <= c < Chunks(s) ensures !Fetched(s, c) {
      if s.dealt { DealtBy(s, c); }
    }
  }

  /** Chunk c is number c / n in the share of thread c % n. */
  lemma DealtBy(s: State, c: nat)
    requires |s.threads| >= 1
    ensures c % |s.threads| < |s.threads| && c / |s.threads| >= 0
    ensures c == c % |s.threads| + (c / |s.threads|) * |s.threads|
  {
    DivBounds(c, |s.threads|);
  }

  lemma ShareIndex(n: nat, t: nat, k: nat)
    requires t < n
    ensures (t + k * n) % n == t && (t + k * n) / n == k
  {
    DivModUnique(t + k * n, n, k, t);
  }

  /** No chunk is handed out twice. */
  lemma OneHolder(s: State, t: nat, u: nat)
    requires Inv(s) && t < |s.threads| && u < |s.threads|
    requires Holds(s.threads[t], s.threads[t].chunk) && Holds(s.threads[u], s.threads[t].chunk)
    ensures t == u
  {
    assert ThreadInv(s, t) && ThreadInv(s, u);
    if s.dealt {
      ShareIndex(|s.threads|, t, s.threads[t].fetched - 1);
      ShareIndex(|s.threads|, u, s.threads[u].fetched - 1);
    }
  }

  // ---------- every step ----------

  /** A step of thread t within its chunk, before any effect on the others. */
  predicate OwnMove(s: State, r: State, t: nat) {
    && t < |s.threads| && |r.threads| == |s.threads|
    && r.threads == s.threads[t := r.threads[t]] && r.threads[t].fetched == s.threads[t].fetched
    && r.cuts == s.cuts && r.trip == s.trip && r.dealt == s.dealt && r.next == s.next && r.takers == s.takers
  }

  lemma FetchedSame(s: State, r: State, t: nat, c: nat)
    requires |s.threads| >= 1 && OwnMove(s, r, t)
    ensures Fetched(r, c) == Fetched(s, c)
  {
    if s.dealt { DealtBy(s, c); }
  }

  lemma OtherThread(s: State, r: State, t: nat, u: nat)
    requires Inv(s) && OwnMove(s, r, t) && u < |s.threads| && u != t
    requires r.orderedCount == s.orderedCount
    requires r.log == s.log || Holds(s.threads[t], s.orderedCount)
    ensures ThreadInv(r, u)
  {
    assert ThreadInv(s, u);
    if !s.threads[u].pc.Fetch? && !s.threads[u].pc.Done? {
      FetchedSame(s, r, t, s.threads[u].chunk);
      if r.log != s.log && s.threads[u].chunk == s.orderedCount {
        OneHolder(s, t, u);
      }
    }
  }

  /** Loop and Wait. */
  lemma MoveInv(s: State, t: nat)
    requires Inv(s) && t < |s.threads| && (s.threads[t].pc.Loop? || s.threads[t].pc.Wait?) && Enabled(s, t)
    requires s.threads[t].chunk + 1 < |s.cuts|
    ensures Inv(Next(s, t))
  {
    var r := Next(s, t);
    forall u | 0 <= u < |r.threads| ensures ThreadInv(r, u) {
      MoveThread(s, t, u);
    }
    forall c | 0 <= c < Chunks(r) ensures ChunkInv(r, c) {
      MoveChunk(s, t, c);
    }
    if s.orderedCount < Chunks(s) { FetchedSame(s, r, t, s.orderedCount); }
  }

  lemma MoveThread(s: State, t: nat, u: nat)
    requires Inv(s) && t < |s.threads| && (s.threads[t].pc.Loop? || s.threads[t].pc.Wait?) && Enabled(s, t)
    requires s.threads[t].chunk + 1 < |s.cuts| && u < |s.threads|
    ensures ThreadInv(Next(s, t), u)
  {
    if u != t {
      OtherThread(s, Next(s, t), t, u);
    } else {
      assert ThreadInv(s, t);
      FetchedSame(s, Next(s, t), t, s.threads[t].chunk);
    }
  }

  lemma MoveChunk(s: State, t: nat, c: nat)
    requires Inv(s) && t < |s.threads| && (s.threads[t].pc.Loop? || s.threads[t].pc.Wait?) && Enabled(s, t)
    requires s.threads[t].chunk + 1 < |s.cuts| && c < Chunks(s)
    ensures ChunkInv(Next(s, t), c)
  {
    assert ThreadInv(s, t) && ChunkInv(s, c);
    FetchedSame(s, Next(s, t), t, c);
  }

  /** The region is run in its turn. */
  lemma RegionInv(s: State, t: nat)
    requires Inv(s) && t < |s.threads| && s.threads[t].pc.Region?
    ensures Inv(Next(s, t))
  {
    var r := Next(s, t);
    assert ThreadInv(s, t);
    FetchedSame(s, r, t, s.orderedCount);
    forall u | 0 <= u < |r.threads| ensures ThreadInv(r, u) {
      RegionThread(s, t, u);
    }
    forall c | 0 <= c < Chunks(r) ensures ChunkInv(r, c) {
      RegionChunk(s, t, c);
    }
  }

  lemma RegionThread(s: State, t: nat, u: nat)
    requires Inv(s) && t < |s.threads| && s.threads[t].pc.Region? && u < |s.threads|
    ensures ThreadInv(Next(s, t), u)
  {
    assert ThreadInv(s, t);
    if u != t {
      OtherThread(s, Next(s, t), t, u);
    } else {
      FetchedSame(s, Next(s, t), t, s.threads[t].chunk);
    }
  }

  lemma RegionChunk(s: State, t: nat, c: nat)
    requires Inv(s) && t < |s.threads| && s.threads[t].pc.Region? && c < Chunks(s)
    ensures ChunkInv(Next(s, t), c)
  {
    assert ThreadInv(s, t) && ChunkInv(s, c);
    FetchedSame(s, Next(s, t), t, c);
    RegionTaker(s, t);
  }

  lemma RegionTaker(s: State, t: nat)
    requires Inv(s) && t < |s.threads| && Holds(s.threads[t], s.threads[t].chunk)
    ensures (!s.dealt ==> s.threads[t].chunk < |s.takers|) && Taker(s, s.threads[t].chunk) == t
  {
    assert ThreadInv(s, t);
    if s.dealt {
      ShareIndex(|s.threads|, t, s.threads[t].fetched - 1);
    }
  }

  /** The count is passed on when the chunk asked for is used up. */
  lemma EndRegionInv(s: State, t: nat)
    requires Inv(s) && t < |s.threads| && s.threads[t].pc.EndRegion?
    ensures Inv(Next(s, t))
  {
    var r := Next(s, t);
    assert ThreadInv(s, t);
    forall u | 0 <= u < |r.threads| ensures ThreadInv(r, u) {
      EndRegionThread(s, t, u);
    }
    forall c | 0 <= c < Chunks(r) ensures ChunkInv(r, c) {
      EndRegionChunk(s, t, c);
    }
    FetchedSame(s, r, t, s.orderedCount);
  }

  lemma EndRegionChunk(s: State, t: nat, c: nat)
    requires Inv(s) && t < |s.threads| && s.threads[t].pc.EndRegion? && c < Chunks(s)
    ensures ChunkInv(Next(s, t), c)
  {
    assert ThreadInv(s, t) && ChunkInv(s, c);
    FetchedSame(s, Next(s, t), t, c);
    RegionTaker(s, t);
  }

  lemma EndRegionThread(s: State, t: nat, u: nat)
    requires Inv(s) && t < |s.threads| && s.threads[t].pc.EndRegion? && u < |s.threads|
    ensures ThreadInv(Next(s, t), u)
  {
    if u != t {
      EndRegionOther(s, t, u);
    } else {
      assert ThreadInv(s, t);
      FetchedSame(s, Next(s, t), t, s.threads[t].chunk);
    }
  }

  lemma EndRegionOther(s: State, t: nat, u: nat)
    requires Inv(s) && t < |s.threads| && s.threads[t].pc.EndRegion? && u < |s.threads| && u != t
    ensures ThreadInv(Next(s, t), u)
  {
    assert ThreadInv(s, t) && ThreadInv(s, u);
    if !s.threads[u].pc.Fetch? && !s.threads[u].pc.Done? {
      FetchedSame(s, Next(s, t), t, s.threads[u].chunk);
      if s.threads[u].chunk == s.orderedCount {
        OneHolder(s, t, u);
      }
    }
  }

  /** What a fetch changes in what has been fetched. */
  lemma FetchHands(s: State, t: nat, c: nat)
    requires Inv(s) && t < |s.threads| && s.threads[t].pc.Fetch? && NextChunk(s, t) < Chunks(s) && c < Chunks(s)
    ensures Fetched(Next(s, t), c) <==> Fetched(s, c) || c == NextChunk(s, t)
    ensures !Fetched(s, NextChunk(s, t)) && (!s.dealt ==> |Next(s, t).takers| == Next(s, t).next)
    ensures Fetched(s, c) ==> Taker(Next(s, t), c) == Taker(s, c)
    ensures Taker(Next(s, t), NextChunk(s, t)) == t
  {
    if s.dealt {
      ShareIndex(|s.threads|, t, s.threads[t].fetched);
      DealtBy(s, c);
    }
  }

  lemma FetchThread(s: State, t: nat, u: nat)
    requires Inv(s) && t < |s.threads| && s.threads[t].pc.Fetch? && NextChunk(s, t) < Chunks(s) && u < |s.threads|
    ensures ThreadInv(Next(s, t), u)
  {
    if u == t {
      FetchHands(s, t, NextChunk(s, t));
      FetchOwn(s, t);
    } else {
      FetchOther(s, t, u);
    }
  }

  lemma FetchOther(s: State, t: nat, u: nat)
    requires Inv(s) && t < |s.threads| && s.threads[t].pc.Fetch? && NextChunk(s, t) < Chunks(s)
    requires u < |s.threads| && u != t
    ensures ThreadInv(Next(s, t), u)
  {
    assert ThreadInv(s, u);
    if !s.threads[u].pc.Fetch? && !s.threads[u].pc.Done? {
      FetchHands(s, t, s.threads[u].chunk);
    }
    UndisturbedThread(s, Next(s, t), u);
  }

  /** More may be handed out, but what thread u has is still its own. */
  lemma UndisturbedThread(s: State, r: State, u: nat)
    requires Shape(s) && Shape(r) && u < |s.threads| && |r.threads| == |s.threads| && ThreadInv(s, u)
    requires r.threads[u] == s.threads[u] && r.cuts == s.cuts && r.trip == s.trip && r.dealt == s.dealt
    requires r.orderedCount == s.orderedCount && r.log == s.log && r.next >= s.next && s.takers <= r.takers
    requires !s.threads[u].pc.Fetch? && !s.threads[u].pc.Done? ==> Fetched(r, s.threads[u].chunk)
    ensures ThreadInv(r, u)
  {
  }

  lemma FetchOwn(s: State, t: nat)
    requires Inv(s) && t < |s.threads| && s.threads[t].pc.Fetch? && NextChunk(s, t) < Chunks(s)
    requires Fetched(Next(s, t), NextChunk(s, t)) && !Fetched(s, NextChunk(s, t))
    ensures ThreadInv(Next(s, t), t)
  {
    assert ChunkInv(s, NextChunk(s, t));
  }

  lemma FetchInv(s: State, t: nat)
    requires Inv(s) && t < |s.threads| && s.threads[t].pc.Fetch? && NextChunk(s, t) < Chunks(s)
    ensures Inv(Next(s, t))
  {
    var r := Next(s, t);
    FetchHands(s, t, NextChunk(s, t));
    forall u | 0 <= u < |r.threads| ensures ThreadInv(r, u) {
      FetchThread(s, t, u);
    }
    forall c | 0 <= c < Chunks(r) ensures ChunkInv(r, c) {
      FetchChunk(s, t, c);
    }
    if r.orderedCount < Chunks(r) { FetchHands(s, t, r.orderedCount); }
  }

  lemma FetchChunk(s: State, t: nat, c: nat)
    requires Inv(s) && t < |s.threads| && s.threads[t].pc.Fetch? && NextChunk(s, t) < Chunks(s) && c < Chunks(s)
    requires !s.dealt ==> |Next(s, t).takers| == Next(s, t).next
    ensures ChunkInv(Next(s, t), c)
  {
    assert ChunkInv(s, c);
    FetchHands(s, t, c);
  }

  /** Nothing left for thread t. */
  lemma RetireInv(s: State, t: nat)
    requires Inv(s) && t < |s.threads| && s.threads[t].pc.Fetch? && NextChunk(s, t) >= Chunks(s)
    ensures Inv(Next(s, t))
  {
    var r := Next(s, t);
    forall u | 0 <= u < |r.threads| ensures ThreadInv(r, u) {
      if u != t { OtherThread(s, r, t, u); }
    }
    forall c | 0 <= c < Chunks(r) ensures ChunkInv(r, c) {
      assert ChunkInv(s, c);
      FetchedSame(s, r, t, c);
    }
    if s.orderedCount < Chunks(s) { FetchedSame(s, r, t, s.orderedCount); }
  }

  lemma NextInv(s: State, t: nat)
    requires Inv(s)
    ensures Inv(Next(s, t))
  {
    if t < |s.threads| {
      assert ThreadInv(s, t);
      if Enabled(s, t) {
        match s.threads[t].pc {
          case Fetch => if NextChunk(s, t) < Chunks(s) { FetchInv(s, t); } else { RetireInv(s, t); }
          case Region => RegionInv(s, t);
          case EndRegion => EndRegionInv(s, t);
          case _ => MoveInv(s, t);
        }
      }
    }
  }

  function Exec(s: State, schedule: seq<nat>): State
    decreases |schedule|
  {
    if schedule == [] then s else Exec(Next(s, schedule[0]), schedule[1..])
  }

  lemma {:induction false} ExecInv(s: State, schedule: seq<nat>)
    requires Inv(s)
    ensures Inv(Exec(s, schedule)) && Exec(s, schedule).trip == s.trip
    decreases |schedule|
  {
    if schedule == [] {
    } else {
      NextInv(s, schedule[0]);
      ExecInv(Next(s, schedule[0]), schedule[1..]);
    }
  }

  // ---------- main results ----------

  /**
  Ordered (section 2.8.7 of the OpenMP API 3.0): in every run the regions run so far are the first iterations,
  in order, each once.
  */
  lemma SequentialOrder(s: State, schedule: seq<nat>, i: nat)
    requires Init(s)
    ensures var r := Exec(s, schedule); i < |r.log| ==> r.log[i] == i
  {
    InitInv(s);
    ExecInv(s, schedule);
  }

  predicate InRegion(th: Thread) {
    th.pc.Region? || th.pc.EndRegion?
  }

  /** One at a time: from its wait to the end of its ordered call, a thread in its region is alone. */
  lemma OneAtATime(s: State, schedule: seq<nat>, t: nat, u: nat)
    requires Init(s)
    ensures var r := Exec(s, schedule);
      (t < |r.threads| && u < |r.threads| && InRegion(r.threads[t]) && InRegion(r.threads[u])) ==> t == u
  {
    InitInv(s);
    ExecInv(s, schedule);
    var r := Exec(s, schedule);
    if t < |r.threads| && u < |r.threads| && InRegion(r.threads[t]) && InRegion(r.threads[u]) {
      assert ThreadInv(r, t) && ThreadInv(r, u);
      OneHolder(r, t, u);
    }
  }

  /** When every thread has run out of chunks every iteration's region has run. */
  lemma AllDoneMeansAll(s: State, schedule: seq<nat>)
    requires Init(s)
    requires forall t :: 0 <= t < |Exec(s, schedule).threads| ==> Exec(s, schedule).threads[t].pc.Done?
    ensures |Exec(s, schedule).log| == s.trip
  {
    InitInv(s);
    ExecInv(s, schedule);
    var r := Exec(s, schedule);
    if r.orderedCount < Chunks(r) {
      var c := r.orderedCount;
      var t := if r.dealt then c % |r.threads| else 0;
      if r.dealt { DealtBy(r, c); }
      assert ThreadInv(r, t);
      DoneMeansFetched(r, t, c);
      assert ChunkInv(r, c);
    }
  }

  /** A thread that has run out leaves no earlier chunk of its own behind. */
  lemma DoneMeansFetched(s: State, t: nat, c: nat)
    requires Inv(s) && t < |s.threads| && NextChunk(s, t) > c && (s.dealt ==> c % |s.threads| == t)
    ensures Fetched(s, c)
  {
    if s.dealt {
      DealtBy(s, c);
      if c / |s.threads| >= s.threads[t].fetched {
        StepsMonotone(s.threads[t].fetched, c / |s.threads|, |s.threads|);
      }
    }
  }

  /** No deadlock: until every thread has run out of chunks some thread can step. */
  lemma SomeoneCanStep(s: State, schedule: seq<nat>, t: nat) returns (u: nat)
    requires Init(s) && t < |Exec(s, schedule).threads| && !Exec(s, schedule).threads[t].pc.Done?
    ensures u < |Exec(s, schedule).threads| && Enabled(Exec(s, schedule), u)
  {
    InitInv(s);
    ExecInv(s, schedule);
    var r := Exec(s, schedule);
    u := t;
    assert ThreadInv(r, t);
    if !Enabled(r, t) {
      u := TurnCanStep(r, t);
    }
  }

  /** Whoever waits, the chunk whose turn it is belongs to a thread that can step. */
  lemma TurnCanStep(s: State, t: nat) returns (u: nat)
    requires Inv(s) && t < |s.threads| && s.threads[t].pc.Wait? && s.orderedCount < s.threads[t].chunk
    ensures u < |s.threads| && Enabled(s, u)
  {
    var c := s.orderedCount;
    assert ThreadInv(s, t) && ChunkInv(s, c);
    if Fetched(s, c) {
      u := Taker(s, c);
    } else {
      assert s.dealt;
      u := c % |s.threads|;
      DealtBy(s, c);
      assert ThreadInv(s, u);
      NotYetFetched(s, u, c);
    }
  }

  /**
  A thread that has a chunk still to fetch before anybody's turn can go on is fetching, or done with an
  earlier one.
  */
  lemma NotYetFetched(s: State, u: nat, c: nat)
    requires Inv(s) && s.dealt && u < |s.threads| && c % |s.threads| == u && c < Chunks(s) && c == s.orderedCount
    requires !Fetched(s, c)
    ensures Enabled(s, u)
  {
    assert ThreadInv(s, u);
    DealtBy(s, c);
    StepsMonotone(s.threads[u].fetched, c / |s.threads|, |s.threads|);
  }

  predicate AllDone(s: State) {
    forall t :: 0 <= t < |s.threads| ==> s.threads[t].pc.Done?
  }

  /** Regions so far in order, none missing at the end, and no deadlock before it. */
  predicate RightSoFar(s: State) {
    && (forall i :: 0 <= i < |s.log| ==> s.log[i] == i)
    && (AllDone(s) ==> |s.log| == s.trip)
    && (AllDone(s) || exists u: nat :: u < |s.threads| && Enabled(s, u))
  }

  ghost predicate RunsRight(s: State) {
    forall schedule: seq<nat> :: RightSoFar(Exec(s, schedule))
  }

  /** The results above in one: a valid plan is run right. */
  lemma ValidPlanRunsRight(s: State)
    requires Init(s)
    ensures RunsRight(s)
  {
    forall schedule: seq<nat> ensures RightSoFar(Exec(s, schedule)) {
      var r := Exec(s, schedule);
      forall i | 0 <= i < |r.log| ensures r.log[i] == i {
        SequentialOrder(s, schedule, i);
      }
      if AllDone(r) {
        AllDoneMeansAll(s, schedule);
      } else {
        var t :| 0 <= t < |r.threads| && !r.threads[t].pc.Done?;
        var u := SomeoneCanStep(s, schedule, t);
      }
      ExecInv(s, schedule) by { InitInv(s); }
    }
  }

  // ---------- an empty first chunk ----------

  /** At the start of a loop, whatever its chunks are. */
  predicate Fresh(s: State) {
    && s.orderedCount == 0 && s.log == []
    && forall t :: 0 <= t < |s.threads| ==> s.threads[t] == Thread(Fetch, 0, 0, 0, 0)
  }

  /** Nobody can get past chunk 0, and chunk 0 has no iteration to pass. */
  predicate Stalled(s: State) {
    && |s.cuts| >= 2 && s.cuts[1] <= s.cuts[0] && s.orderedCount == 0 && s.log == []
    && forall t :: 0 <= t < |s.threads| ==>
         && !InRegion(s.threads[t])
         && (s.threads[t].pc.Loop? && s.threads[t].chunk == 0 ==> s.threads[t].at >= s.cuts[0])
         && (s.threads[t].pc.Wait? ==> s.threads[t].chunk > 0)
  }

  lemma {:induction false} StalledForever(s: State, schedule: seq<nat>)
    requires Stalled(s)
    ensures Stalled(Exec(s, schedule)) && Exec(s, schedule).trip == s.trip
    decreases |schedule|
  {
    if schedule == [] {
    } else {
      StalledFor(s, schedule[0]);
      StalledForever(Next(s, schedule[0]), schedule[1..]);
    }
  }

  lemma StalledFor(s: State, t: nat)
    requires Stalled(s)
    ensures Stalled(Next(s, t)) && Next(s, t).trip == s.trip
  {
  }

  /** If the first chunk is empty no ordered region ever runs: the count can never leave 0. */
  lemma EmptyFirstChunk(s: State, schedule: seq<nat>)
    requires Fresh(s) && |s.cuts| >= 2 && s.cuts[1] <= s.cuts[0]
    ensures Exec(s, schedule).log == []
  {
    StalledForever(s, schedule);
  }

  /** The chunks are dealt out one to a thread, the first is empty, and there is something to do in some other. */
  predicate FirstEmpty(s: State) {
    && s.dealt && Chunks(s) == |s.threads| >= 1 && s.cuts[0] == s.cuts[1] == 0 < s.trip
    && Ascending(s.cuts) && forall c :: 0 <= c < |s.cuts| ==> s.cuts[c] <= s.trip
  }

  /** Where thread t ends up: waiting for its turn, or done if it has nothing to do. */
  function Parked(s: State, t: nat): Thread
    requires t + 1 < |s.cuts|
  {
    Thread(if s.cuts[t] < s.cuts[t + 1] then Wait else Done, t, s.cuts[t], s.cuts[t + 1] - s.cuts[t], 1)
  }

  /** It fetches its chunk ... */
  function Entered(s: State, t: nat): Thread
    requires t + 1 < |s.cuts|
  {
    Thread(Loop, t, s.cuts[t], s.cuts[t + 1] - s.cuts[t], 1)
  }

  function WithThread(s: State, t: nat, th: Thread): State
    requires t < |s.threads|
  {
    s.(threads := s.threads[t := th])
  }

  lemma ParkFetch(s: State, t: nat)
    requires FirstEmpty(s) && t < |s.threads| && s.threads[t] == Thread(Fetch, 0, 0, 0, 0)
    ensures Next(s, t) == WithThread(s, t, Entered(s, t))
  {
    assert NextChunk(s, t) == t;
  }

  /** ... finds it empty or not ... */
  lemma ParkLoop(s: State, t: nat)
    requires FirstEmpty(s) && t < |s.threads| && s.threads[t] == Entered(s, t)
    ensures Next(s, t) ==
      WithThread(s, t, Entered(s, t).(pc := if s.cuts[t] < s.cuts[t + 1] then Wait else Fetch))
  {
    assert s.cuts[t] <= s.cuts[t + 1] <= s.trip;
    assert End(s, t) == s.cuts[t + 1];
  }

  /** ... and is out of work, or waits. */
  lemma ParkLast(s: State, t: nat)
    requires FirstEmpty(s) && s.orderedCount == 0 && t < |s.threads|
    requires s.threads[t] == Entered(s, t).(pc := if s.cuts[t] < s.cuts[t + 1] then Wait else Fetch)
    ensures Next(s, t) == WithThread(s, t, Parked(s, t))
  {
    if s.cuts[t] < s.cuts[t + 1] {
      assert t > 0 && !Enabled(s, t);
    } else {
      assert NextChunk(s, t) == t + |s.threads|;
    }
  }

  lemma ThreeSteps(s: State, t: nat)
    requires FirstEmpty(s) && s.orderedCount == 0 && t < |s.threads| && s.threads[t] == Thread(Fetch, 0, 0, 0, 0)
    ensures Exec(s, [t, t, t]) == WithThread(s, t, Parked(s, t))
  {
    ParkFetch(s, t);
    var s1 := WithThread(s, t, Entered(s, t));
    ParkLoop(s1, t);
    var s2 := WithThread(s1, t, Entered(s, t).(pc := if s.cuts[t] < s.cuts[t + 1] then Wait else Fetch));
    ParkLast(s2, t);
    assert [t, t, t][1..] == [t, t] && [t, t][1..] == [t] && [t][1..] == [];
    assert Exec(s, [t, t, t]) == Exec(s1, [t, t]) == Exec(s2, [t]) == Exec(WithThread(s2, t, Parked(s, t)), []);
  }

  /** Three steps of each of the first k threads. */
  function Rounds(k: nat): seq<nat> {
    if k == 0 then [] else Rounds(k - 1) + [k - 1, k - 1, k - 1]
  }

  lemma {:induction false} ExecConcat(s: State, a: seq<nat>, b: seq<nat>)
    ensures Exec(s, a + b) == Exec(Exec(s, a), b)
    decreases |a|
  {
    if a == [] {
      assert a + b == b;
    } else {
      assert (a + b)[1..] == a[1..] + b;
      ExecConcat(Next(s, a[0]), a[1..], b);
    }
  }

  /** The first k threads parked, the others not yet started. */
  function Parking(s: State, k: nat): (r: State)
    requires FirstEmpty(s) && k <= |s.threads|
    ensures |r.threads| == |s.threads|
    ensures forall t :: 0 <= t < |s.threads| ==> r.threads[t] == if t < k then Parked(s, t) else s.threads[t]
  {
    s.(threads := seq(|s.threads|, t requires 0 <= t < |s.threads| => if t < k then Parked(s, t) else s.threads[t]))
  }

  lemma ParkNext(s: State, k: nat)
    requires Fresh(s) && FirstEmpty(s) && k < |s.threads|
    ensures Exec(Parking(s, k), [k, k, k]) == Parking(s, k + 1)
  {
    ThreeSteps(Parking(s, k), k);
    SameParked(Parking(s, k), s, k);
    assert Parking(s, k).threads[k := Parked(s, k)] == Parking(s, k + 1).threads;
  }

  lemma SameParked(r: State, s: State, k: nat)
    requires r.cuts == s.cuts && k + 1 < |s.cuts|
    ensures Parked(r, k) == Parked(s, k)
  {
  }

  lemma RoundsSplit(s: State, k: nat)
    requires k >= 1
    ensures Exec(s, Rounds(k)) == Exec(Exec(s, Rounds(k - 1)), [k - 1, k - 1, k - 1])
  {
    ExecConcat(s, Rounds(k - 1), [k - 1, k - 1, k - 1]);
  }

  lemma {:induction false} RoundsPark(s: State, k: nat)
    requires Fresh(s) && FirstEmpty(s) && k <= |s.threads|
    ensures Exec(s, Rounds(k)) == Parking(s, k)
  {
    if k == 0 {
      assert s.threads == Parking(s, 0).threads;
    } else {
      RoundsPark(s, k - 1);
      RoundsSplit(s, k);
      ParkNext(s, k - 1);
    }
  }

  /** Then the loop deadlocks: everybody who has something to do waits for a count that never moves. */
  lemma FirstEmptyDeadlocks(s: State)
    requires Fresh(s) && FirstEmpty(s)
    ensures !RunsRight(s)
  {
    var n := |s.threads|;
    var r := Exec(s, Rounds(n));
    RoundsPark(s, n);
    forall u | 0 <= u < n ensures !Enabled(r, u) {
      assert r.threads[u] == Parked(s, u);
    }
    assert !RightSoFar(r) by {
      StalledForever(s, Rounds(n));
    }
  }

  // ---------- no iterations ----------

  /** Every chunk is empty. */
  predicate Idle(s: State) {
    && s.trip == 0 && s.log == [] && (forall c :: 0 <= c < |s.cuts| ==> s.cuts[c] == 0)
    && forall t :: 0 <= t < |s.threads| ==>
         && !InRegion(s.threads[t]) && !s.threads[t].pc.Wait? && (s.threads[t].pc.Loop? ==> s.threads[t].at == 0)
  }

  lemma IdleStays(s: State, t: nat)
    requires Idle(s)
    ensures Idle(Next(s, t))
  {
  }

  lemma {:induction false} IdleForever(s: State, schedule: seq<nat>)
    requires Idle(s)
    ensures Idle(Exec(s, schedule))
    decreases |schedule|
  {
    if schedule == [] {
    } else {
      IdleStays(s, schedule[0]);
      IdleForever(Next(s, schedule[0]), schedule[1..]);
    }
  }

  /** A loop without iterations is run right even by empty chunks: nobody ever waits. */
  lemma IdleRunsRight(s: State)
    requires Idle(s)
    ensures RunsRight(s)
  {
    forall schedule: seq<nat> ensures RightSoFar(Exec(s, schedule)) {
      IdleForever(s, schedule);
      var r := Exec(s, schedule);
      if !AllDone(r) {
        var t :| 0 <= t < |r.threads| && !r.threads[t].pc.Done?;
        assert Enabled(r, t);
      }
    }
  }

  // ---------- the plans of the schedules ----------

  /** Rising at every place is rising throughout. */
  lemma {:induction false} RisesThroughout(cuts: seq<int>, c: nat, d: nat)
    requires forall i :: 0 <= i < |cuts| - 1 ==> cuts[i] < cuts[i + 1]
    requires c < d < |cuts|
    ensures cuts[c] < cuts[d]
    decreases d
  {
    assert cuts[d - 1] < cuts[d - 1 + 1];
    if c >= d - 1 {
    } else {
      RisesThroughout(cuts, c, d - 1);
    }
  }

  /** Dynamic and guided. */
  lemma DynamicPlan(kind: Kind, team: nat, chunk: int, trip: int)
    requires team >= 1 && chunk >= 1 && trip >= 0
    ensures ValidPlan(Cuts(kind, team, chunk, trip, 0), trip)
    ensures ValidPlan(Clipped(Cuts(kind, team, chunk, trip, 0), trip), trip)
  {
    var cuts := Cuts(kind, team, chunk, trip, 0);
    assert cuts[0] == 0;
    CutsChain(kind, team, chunk, trip, 0, |cuts| - 1);
    forall c | 0 <= c < |cuts| - 1 ensures cuts[c] < trip && cuts[c] < cuts[c + 1] {
      CutsChain(kind, team, chunk, trip, 0, c);
    }
    forall c, d | 0 <= c < d < |cuts| ensures cuts[c] < cuts[d] {
      RisesThroughout(cuts, c, d);
    }
    ClippedPlan(cuts, trip);
  }

  /** Clipping the chunks of a plan that all begin inside the loop leaves a plan. */
  lemma ClippedPlan(cuts: seq<int>, trip: int)
    requires ValidPlan(cuts, trip) && forall c :: 0 <= c < |cuts| - 1 ==> cuts[c] < trip
    ensures ValidPlan(Clipped(cuts, trip), trip)
  {
    var clipped := Clipped(cuts, trip);
    forall c, d | 0 <= c < d < |clipped| ensures clipped[c] < clipped[d] {
      assert cuts[c] < cuts[d] && cuts[c] < trip;
    }
  }

  /** `count` chunks of one size. */
  function EqualChunks(count: nat, size: nat): (cuts: seq<int>)
    ensures |cuts| == count + 1
  {
    seq(count + 1, c => c * size)
  }

  /** Enough chunks of one size are a plan, however many of them begin beyond the loop. */
  lemma EqualPlan(count: nat, size: nat, trip: int)
    requires size >= 1 && 0 <= trip <= count * size
    ensures ValidPlan(EqualChunks(count, size), trip)
  {
    var cuts := EqualChunks(count, size);
    assert cuts[0] == 0 * size == 0;
    forall c | 0 <= c < |cuts| - 1 ensures cuts[c] < cuts[c + 1] {
      assert (c + 1) * size == c * size + size;
    }
    forall c, d | 0 <= c < d < |cuts| ensures cuts[c] < cuts[d] {
      RisesThroughout(cuts, c, d);
    }
  }

  /** Static: as many chunks as the runtime's trip count makes it grant. */
  function StaticChunks(tripCount: int, chunk: nat): nat
    requires chunk >= 1
  {
    if tripCount >= 1 then ShareCovers(tripCount, chunk); Share(tripCount, chunk) else 0
  }

  /** The chunks granted are those that begin below the trip count, and they are a plan for the loop. */
  lemma StaticPlanValid(lower: int, upper: int, incr: int, chunk: nat, c: nat)
    requires incr != 0 && chunk >= 1
    ensures var count := StaticChunks(TripCount(lower, upper, incr), chunk);
      && (c < count <==> c * chunk < TripCount(lower, upper, incr))
      && ValidPlan(EqualChunks(count, chunk), Trips(lower, upper, incr))
  {
    var tripCount := TripCount(lower, upper, incr);
    TripsBounds(lower, upper, incr);
    StaticGrants(tripCount, chunk, c);
    if tripCount >= 1 {
      ShareCovers(tripCount, chunk);
      EqualPlan(Share(tripCount, chunk), chunk, Trips(lower, upper, incr));
    }
  }

  lemma StaticGrants(tripCount: int, chunk: nat, c: nat)
    requires chunk >= 1
    ensures c < StaticChunks(tripCount, chunk) <==> c * chunk < tripCount
  {
    ScaleNonNegative(c, chunk);
    if tripCount >= 1 {
      LastChunkBegins(tripCount, chunk, c);
    }
  }

  /** The chunks that make up the share begin inside the loop, and no others. */
  lemma LastChunkBegins(trip: int, chunk: nat, c: int)
    requires trip >= 1 && chunk >= 1
    ensures c * chunk < trip <==> c < Share(trip, chunk)
  {
    var q, r := trip / chunk, trip % chunk;
    assert trip == q * chunk + r;
    var m := if r == 0 then q - 1 else q;
    assert (q - 1) * chunk == q * chunk - chunk && (m + 1) * chunk == m * chunk + chunk;
    if c <= m {
      StepsMonotone(c, m, chunk);
    } else {
      StepsMonotone(m + 1, c, chunk);
    }
  }

  /** Static with the chunks clipped before they are counted, as in collapsed loops. */
  lemma ClippedStaticPlan(trip: nat, chunk: nat)
    requires chunk >= 1
    ensures ValidPlan(Clipped(EqualChunks(StaticChunks(trip, chunk), chunk), trip), trip)
  {
    var count := StaticChunks(trip, chunk);
    StaticGrants(trip, chunk, count);
    EqualPlan(count, chunk, trip);
    forall c | 0 <= c < count ensures EqualChunks(count, chunk)[c] < trip {
      StaticGrants(trip, chunk, c);
    }
    ClippedPlan(EqualChunks(count, chunk), trip);
  }

  /** Static-even: how many threads are granted a block, some of which may begin beyond the loop. */
  function EvenGrants(tripCount: int, team: nat): nat {
    if tripCount >= team then team else if tripCount >= 0 then tripCount else 0
  }

  /** The block size; where no block is granted any size will do. */
  function EvenSize(tripCount: int, team: nat): nat
    requires team >= 1
  {
    if tripCount >= 1 then ShareCovers(tripCount, team); Share(tripCount, team) else 1
  }

  /** Static-even: a thread is granted its block exactly when it is one of the plan's, and the blocks are a plan. */
  lemma StaticEvenPlan(lower: int, upper: int, incr: int, team: nat, tid: nat)
    requires incr != 0 && team >= 1 && tid < team
    ensures var tripCount := TripCount(lower, upper, incr);
      && (tid < EvenGrants(tripCount, team) <==> tripCount >= team || tid < tripCount)
      && ValidPlan(EqualChunks(EvenGrants(tripCount, team), EvenSize(tripCount, team)), Trips(lower, upper, incr))
  {
    var tripCount := TripCount(lower, upper, incr);
    TripsBounds(lower, upper, incr);
    if tripCount >= 1 {
      ShareCovers(tripCount, team);
      if tripCount < team { SmallShare(tripCount, team); }
    }
    EqualPlan(EvenGrants(tripCount, team), EvenSize(tripCount, team), Trips(lower, upper, incr));
  }
}
