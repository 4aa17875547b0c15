/**
Dynamic and guided loops, ordered or not.  Under the team's schedule lock each caller takes the next range of
iterations off the front of what is left, so the k-th range granted is the same whichever thread calls.
*/
module DynamicSchedule {
  import opened Arith
  import opened LoopSpace

  datatype Kind = Dynamic | Guided | OrderedDynamic | OrderedGuided

  /** How many iterations a grant takes when `left` are left, before clipping. */
  function Size(kind: Kind, team: nat, chunk: int, left: int): (size: int)
    requires team >= 1 && chunk >= 1
    ensures size >= 1
  {
    match kind
    case Guided => if left / (2 * team) > chunk then left / (2 * team) else chunk
    case OrderedGuided => if left / team > chunk then left / team else chunk
    case _ => chunk
  }

  /** Where the ranges begin, from iteration number `pos` on; the last entry is where the loop has ended. */
  function Cuts(kind: Kind, team: nat, chunk: int, trip: int, pos: int): (cuts: seq<int>)
    requires team >= 1 && chunk >= 1
    ensures |cuts| >= 1
    decreases trip - pos
  {
    if pos >= trip then [pos] else [pos] + Cuts(kind, team, chunk, trip, pos + Size(kind, team, chunk, trip - pos))
  }

  /** Each range but the last ends where the next begins, and only the last can reach past the end of the loop. */
  lemma {:induction false} CutsChain(kind: Kind, team: nat, chunk: int, trip: int, pos: int, k: nat)
    requires team >= 1 && chunk >= 1
    requires k < |Cuts(kind, team, chunk, trip, pos)|
    ensures var cuts := Cuts(kind, team, chunk, trip, pos);
      if k < |cuts| - 1 then pos <= cuts[k] < trip && cuts[k + 1] == cuts[k] + Size(kind, team, chunk, trip - cuts[k])
      else cuts[k] >= trip && cuts[k] >= pos
    decreases trip - pos
  {
    if pos >= trip {
    } else {
      var next := pos + Size(kind, team, chunk, trip - pos);
      var rest := Cuts(kind, team, chunk, trip, next);
      assert rest[0] == next;
      if k > 0 {
        CutsChain(kind, team, chunk, trip, next, k - 1);
      }
    }
  }

  /** The number of grants is finite: at most one for each iteration. */
  lemma {:induction false} CutsFinite(kind: Kind, team: nat, chunk: int, trip: int, pos: int)
    requires team >= 1 && chunk >= 1 && pos <= trip
    ensures |Cuts(kind, team, chunk, trip, pos)| - 1 <= trip - pos
    decreases trip - pos
  {
    if pos >= trip {
    } else {
      var next := pos + Size(kind, team, chunk, trip - pos);
      if next <= trip {
        CutsFinite(kind, team, chunk, trip, next);
      } else {
        assert |Cuts(kind, team, chunk, trip, next)| == 1;
      }
    }
  }

  lemma DivMonotone(a: int, b: int, n: int)
    requires 0 <= a <= b && n >= 1
    ensures a / n <= b / n
  {
    DivBounds(a, n);
    ChunkNumber(b, n, a / n);
  }

  /** The sizes asked for never increase. */
  lemma SizesNeverIncrease(kind: Kind, team: nat, chunk: int, trip: int, k: nat)
    requires team >= 1 && chunk >= 1
    requires k + 2 < |Cuts(kind, team, chunk, trip, 0)|
    ensures var cuts := Cuts(kind, team, chunk, trip, 0); cuts[k + 2] - cuts[k + 1] <= cuts[k + 1] - cuts[k]
  {
    var cuts := Cuts(kind, team, chunk, trip, 0);
    CutsChain(kind, team, chunk, trip, 0, k);
    CutsChain(kind, team, chunk, trip, 0, k + 1);
    DivMonotone(trip - cuts[k + 1], trip - cuts[k], 2 * team);
    DivMonotone(trip - cuts[k + 1], trip - cuts[k], team);
  }

  /** The share of what is left that a guided grant is meant to take. */
  function Parts(kind: Kind, team: nat): nat {
    if kind.Guided? then 2 * team else team
  }

  /**
  How long a grant is.  Dynamic: the chunk.  Guided: what is left divided by twice the team, or by the team where it is
  ordered, but no less than the chunk.
  */
  predicate IsLength(kind: Kind, team: nat, chunk: int, left: int, length: int) {
    if kind.Guided? || kind.OrderedGuided? then
      && length >= chunk && left < Parts(kind, team) * (length + 1)
      && (length > chunk ==> Parts(kind, team) * length <= left)
    else length == chunk
  }

  lemma SizeIsLength(kind: Kind, team: nat, chunk: int, left: int)
    requires team >= 1 && chunk >= 1 && left >= 0
    ensures IsLength(kind, team, chunk, left, Size(kind, team, chunk, left))
  {
    if kind.Guided? || kind.OrderedGuided? {
      PartOf(left, Parts(kind, team), Size(kind, team, chunk, left));
    }
  }

  lemma GrantLength(kind: Kind, team: nat, chunk: int, trip: int, k: nat)
    requires team >= 1 && chunk >= 1 && k + 1 < |Cuts(kind, team, chunk, trip, 0)|
    ensures var cuts := Cuts(kind, team, chunk, trip, 0);
      cuts[k] < trip && IsLength(kind, team, chunk, trip - cuts[k], cuts[k + 1] - cuts[k])
  {
    CutsChain(kind, team, chunk, trip, 0, k);
    SizeIsLength(kind, team, chunk, trip - Cuts(kind, team, chunk, trip, 0)[k]);
  }

  lemma PartOf(left: int, parts: int, length: int)
    requires left >= 0 && parts >= 1 && left / parts <= length
    ensures left < parts * (length + 1) && (length == left / parts ==> parts * length <= left)
  {
    DivBounds(left, parts);
    StepsMonotone(left / parts, length, parts);
    assert parts * (length + 1) == length * parts + parts;
  }

  /** The cuts, the last brought back to the end of the loop. */
  function Clipped(cuts: seq<int>, trip: int): (c: seq<int>)
    ensures |c| == |cuts| && forall k :: 0 <= k < |c| ==> c[k] == Min(cuts[k], trip)
  {
    seq(|cuts|, k requires 0 <= k < |cuts| => Min(cuts[k], trip))
  }

  /** Exact cover: the clipped ranges, in the order they are granted, are the loop. */
  lemma GrantsCover(kind: Kind, team: nat, chunk: int, lower: int, upper: int, incr: int)
    requires team >= 1 && chunk >= 1 && incr != 0
    ensures var trip := Trips(lower, upper, incr);
      Pieces(lower, incr, Clipped(Cuts(kind, team, chunk, trip, 0), trip)) == Iterations(lower, upper, incr)
  {
    var trip := Trips(lower, upper, incr);
    TripsBounds(lower, upper, incr);
    ClippedPieces(kind, team, chunk, trip, lower, incr);
    WholeLoop(lower, upper, incr);
  }

  lemma ClippedPieces(kind: Kind, team: nat, chunk: int, trip: int, lower: int, incr: int)
    requires team >= 1 && chunk >= 1 && trip >= 0
    ensures Pieces(lower, incr, Clipped(Cuts(kind, team, chunk, trip, 0), trip)) == Values(lower, incr, 0, trip)
  {
    var cuts := Cuts(kind, team, chunk, trip, 0);
    var c := Clipped(cuts, trip);
    CutsChain(kind, team, chunk, trip, 0, |cuts| - 1);
    forall k | 0 <= k < |c| - 1 ensures c[k] <= c[k + 1] {
      CutsChain(kind, team, chunk, trip, 0, k);
    }
    PiecesMakeWhole(lower, incr, c);
  }

  /** After pos iterations the loop that is left has pos fewer. */
  lemma TripFrom(lower: int, upper: int, incr: int, pos: int)
    requires incr != 0 && Within(lower, upper, incr) && 0 <= pos < TripCount(lower, upper, incr)
    ensures Within(lower + pos * incr, upper, incr)
    ensures TripCount(lower + pos * incr, upper, incr) == TripCount(lower, upper, incr) - pos
  {
    var trip, from := TripCount(lower, upper, incr), lower + pos * incr;
    WithinIffBelowTrip(lower, upper, incr, pos);
    var left := TripCount(from, upper, incr);
    assert from + (trip - pos) * incr == lower + trip * incr;
    assert from + (trip - pos - 1) * incr == lower + (trip - 1) * incr;
    WithinIffBelowTrip(lower, upper, incr, trip);
    WithinIffBelowTrip(lower, upper, incr, trip - 1);
    WithinIffBelowTrip(from, upper, incr, trip - pos);
    WithinIffBelowTrip(from, upper, incr, trip - pos - 1);
  }

  /** The team's loop fields. */
  class Team {
    const kind: Kind
    const teamSize: nat
    const chunkSize: int
    const upperBound: int
    const increment: int
    var lowerBound: int
    var scheduleCount: int
    /** Where the loop began, and how many ranges have been granted. */
    ghost const first: int
    ghost var grants: nat

    ghost function Trip(): int
      requires increment != 0
    {
      Trips(first, upperBound, increment)
    }

    ghost function Plan(): seq<int>
      requires teamSize >= 1 && chunkSize >= 1 && increment != 0
    {
      Cuts(kind, teamSize, chunkSize, Trip(), 0)
    }

    ghost predicate Valid()
      reads this
    {
      && teamSize >= 1 && chunkSize >= 1 && increment != 0
      && grants < |Plan()| && lowerBound == first + Plan()[grants] * increment
      && (kind.OrderedDynamic? || kind.OrderedGuided? ==> scheduleCount == grants)
    }

    constructor (kind: Kind, teamSize: nat, lower: int, upper: int, incr: int, chunk: int)
      requires teamSize >= 1 && chunk >= 1 && incr != 0
      ensures Valid() && grants == 0 && first == lower
      ensures this.kind == kind && this.teamSize == teamSize && chunkSize == chunk
      ensures upperBound == upper && increment == incr
    {
      this.kind, this.teamSize, chunkSize, upperBound, increment := kind, teamSize, chunk, upper, incr;
      lowerBound, scheduleCount := lower, 0;
      first, grants := lower, 0;
      new;
      assert Plan()[0] == 0;
    }

    /** One call of schedule_next, under the lock: the next range of the plan, or nothing when the loop has ended. */
    method ScheduleNext() returns (more: bool, myLower: int, myUpper: int, ordinal: int)
      requires Valid()
      modifies this
      ensures Valid() && more == (old(grants) + 1 < |Plan()|) && grants == old(grants) + (if more then 1 else 0)
      ensures !Within(first, upperBound, increment) ==> !more
      ensures more ==>
        && myLower == first + Plan()[old(grants)] * increment
        && myUpper == first + (Plan()[old(grants) + 1] - 1) * increment
        && (kind.OrderedDynamic? || kind.OrderedGuided? ==> ordinal == old(grants))
    {
      ghost var pos, trip := Plan()[grants], Trip();
      CutsChain(kind, teamSize, chunkSize, trip, 0, grants);
      TripsBounds(first, upperBound, increment);
      WithinIffBelowTrips(first, upperBound, increment, pos);
      var tripFlag := (upperBound - lowerBound) * increment;
      SignOfTrip(upperBound - lowerBound, increment);
      if tripFlag < 0 {
        return false, 0, 0, 0;
      }
      TripFrom(first, upperBound, increment, pos);
      var tripCount := CDiv(upperBound - lowerBound, increment) + 1;
      myLower := lowerBound;
      var chunk := chunkSize;
      if kind.Guided? || kind.OrderedGuided? {
        var blockSize := tripCount / (if kind.Guided? then 2 * teamSize else teamSize);
        if blockSize > chunk {
          chunk := blockSize;
        }
      }
      myUpper := myLower + (chunk - 1) * increment;
      lowerBound := myLower + chunk * increment;
      ordinal := scheduleCount;
      if kind.OrderedDynamic? || kind.OrderedGuided? {
        scheduleCount := scheduleCount + 1;
      }
      more := true;
      grants := grants + 1;
      assert chunk == Size(kind, teamSize, chunkSize, trip - pos);
      Advance(first, increment, pos, chunk);
    }
  }

  /** The sign of the trip flag says whether the bound has been passed. */
  lemma SignOfTrip(d: int, incr: int)
    requires incr != 0
    ensures d * incr < 0 <==> if incr > 0 then d < 0 else d > 0
  {
    if incr > 0 {
      if d < 0 { StepsMonotone(d, -1, incr); } else { StepsMonotone(0, d, incr); }
    } else {
      if d > 0 { StepsMonotone(1, d, incr); } else { StepsMonotone(d, 0, incr); }
    }
  }

  lemma Advance(first: int, incr: int, pos: int, size: int)
    ensures first + pos * incr + (size - 1) * incr == first + (pos + size - 1) * incr
    ensures first + pos * incr + size * incr == first + (pos + size) * incr
  {
  }

  /** What a grant comes to once its caller has clipped it. */
  lemma GrantClipped(kind: Kind, team: nat, chunk: int, lower: int, upper: int, incr: int, k: nat)
    requires team >= 1 && chunk >= 1 && incr != 0
    requires k + 1 < |Cuts(kind, team, chunk, Trips(lower, upper, incr), 0)|
    ensures var trip := Trips(lower, upper, incr); var cuts := Cuts(kind, team, chunk, trip, 0);
      Iterations(lower + cuts[k] * incr, Clip(lower + (cuts[k + 1] - 1) * incr, upper, incr), incr)
      == Values(lower, incr, Clipped(cuts, trip)[k], Clipped(cuts, trip)[k + 1])
  {
    var trip := Trips(lower, upper, incr);
    var cuts := Cuts(kind, team, chunk, trip, 0);
    CutsChain(kind, team, chunk, trip, 0, k);
    var from, to := cuts[k], cuts[k + 1];
    assert Clipped(cuts, trip)[k] == from && Clipped(cuts, trip)[k + 1] == Min(to, trip);
    ClippedChunk(lower, upper, incr, from, to);
  }
}
