/** The iterations of a loop from lower to upper by incr, in either direction, and what clipping does to a range. */
module LoopSpace {
  import opened Arith

  /** The C quotient, which rounds towards zero. */
  function CDiv(a: int, b: int): int
    requires b != 0
  {
    if a >= 0 then (if b > 0 then a / b else -(a / -b))
    else if b > 0 then -(-a / b) else -a / -b
  }

  /** The C remainder, which has the sign of the dividend. */
  function CRem(a: int, b: int): int
    requires b != 0
  {
    a - CDiv(a, b) * b
  }

  /** Is i still an iteration of a loop up to upper? */
  predicate Within(i: int, upper: int, incr: int) {
    if incr > 0 then i <= upper else i >= upper
  }

  /** What the loop statement does: the iterations it goes through. */
  function Iterations(lower: int, upper: int, incr: int): seq<int>
    requires incr != 0
    decreases if incr > 0 then upper - lower else lower - upper
  {
    if Within(lower, upper, incr) then [lower] + Iterations(lower + incr, upper, incr) else []
  }

  /** The number of iterations of a loop that has at least one, as the runtime computes it. */
  function TripCount(lower: int, upper: int, incr: int): int
    requires incr != 0
  {
    CDiv(upper - lower, incr) + 1
  }

  /** The number of iterations of any loop; the runtime's trip count is meant for loops that have some. */
  function Trips(lower: int, upper: int, incr: int): (n: int)
    requires incr != 0
  {
    if Within(lower, upper, incr) then TripCount(lower, upper, incr) else 0
  }

  /** Iterations number `from` up to `to`, by formula. */
  function Values(lower: int, incr: int, from: int, to: int): (v: seq<int>)
    ensures |v| == if from <= to then to - from else 0
    ensures forall k :: 0 <= k < |v| ==> v[k] == lower + (from + k) * incr
  {
    if from <= to then seq(to - from, k requires 0 <= k < to - from => lower + (from + k) * incr) else []
  }

  /** The caller's adjustment of a chunk's upper bound. */
  function Clip(myUpper: int, upper: int, incr: int): int {
    if incr > 0 then (if myUpper > upper then upper else myUpper) else if myUpper < upper then upper else myUpper
  }

  // ---------- the loop and its trip count ----------

  /** The trip count is the number of steps that stay within the bound. */
  lemma TripCountBounds(lower: int, upper: int, incr: int)
    requires incr != 0 && Within(lower, upper, incr)
    ensures TripCount(lower, upper, incr) >= 1
    ensures Within(lower + (TripCount(lower, upper, incr) - 1) * incr, upper, incr)
    ensures !Within(lower + TripCount(lower, upper, incr) * incr, upper, incr)
  {
    var q := TripCount(lower, upper, incr) - 1;
    if incr > 0 {
      DivBounds(upper - lower, incr);
      assert (q + 1) * incr == q * incr + incr;
    } else {
      DivBounds(lower - upper, -incr);
      NegMul(q, incr);
      assert (q + 1) * incr == q * incr + incr;
    }
  }

  lemma DivBounds(a: int, b: int)
    requires a >= 0 && b > 0
    ensures a / b >= 0 && (a / b) * b <= a < (a / b) * b + b
  {
    assert a == (a / b) * b + a % b;
  }

  lemma NegMul(q: int, b: int)
    ensures q * -b == -(q * b)
  {
  }

  lemma {:induction false} StepsMonotone(i: int, j: int, incr: int)
    requires i <= j
    ensures incr > 0 ==> i * incr <= j * incr
    ensures incr < 0 ==> i * incr >= j * incr
    decreases j - i
  {
    if i >= j {
    } else {
      StepsMonotone(i, j - 1, incr);
      assert j * incr == (j - 1) * incr + incr;
    }
  }

  /** Chunk number c is the one that holds iterations c * chunk and up. */
  lemma ChunkNumber(i: int, chunk: int, c: int)
    requires i >= 0 && chunk >= 1
    ensures c * chunk <= i < (c + 1) * chunk <==> i / chunk == c
    ensures i / chunk >= c <==> i >= c * chunk
  {
    var q := i / chunk;
    DivBounds(i, chunk);
    assert (q + 1) * chunk == q * chunk + chunk && (c + 1) * chunk == c * chunk + chunk;
    if c <= q {
      StepsMonotone(c, q, chunk);
    } else {
      StepsMonotone(q + 1, c, chunk);
    }
    if c + 1 <= q {
      StepsMonotone(c + 1, q, chunk);
    }
  }

  /** Iteration number i is one of the loop's exactly when it is below the trip count. */
  lemma WithinIffBelowTrip(lower: int, upper: int, incr: int, i: int)
    requires incr != 0 && Within(lower, upper, incr)
    ensures Within(lower + i * incr, upper, incr) <==> i < TripCount(lower, upper, incr)
  {
    var n := TripCount(lower, upper, incr);
    TripCountBounds(lower, upper, incr);
    if i < n {
      StepsMonotone(i, n - 1, incr);
    } else {
      StepsMonotone(n, i, incr);
    }
  }

  /** From iteration number i on, the loop goes through the remaining iterations. */
  lemma {:induction false} LoopIsValues(lower: int, upper: int, incr: int, i: int)
    requires incr != 0 && Within(lower, upper, incr) && 0 <= i <= TripCount(lower, upper, incr)
    ensures Iterations(lower + i * incr, upper, incr) == Values(lower, incr, i, TripCount(lower, upper, incr))
    decreases TripCount(lower, upper, incr) - i
  {
    WithinIffBelowTrip(lower, upper, incr, i);
    if i >= TripCount(lower, upper, incr) {
    } else {
      LoopIsValues(lower, upper, incr, i + 1);
      FirstValue(lower, incr, i, TripCount(lower, upper, incr));
    }
  }

  lemma FirstValue(lower: int, incr: int, i: int, n: int)
    requires i < n
    ensures lower + i * incr + incr == lower + (i + 1) * incr
    ensures Values(lower, incr, i, n) == [lower + i * incr] + Values(lower, incr, i + 1, n)
  {
    var v, w := Values(lower, incr, i, n), Values(lower, incr, i + 1, n);
    forall k | 0 <= k < n - i - 1 ensures v[1 + k] == w[k] {
      assert i + (1 + k) == i + 1 + k;
    }
  }

  /** A loop that has no iteration has none further on, whatever nearer bound it is given. */
  lemma BeyondLoop(lower: int, upper: int, incr: int, i: int, bound: int)
    requires incr != 0 && !Within(lower, upper, incr) && i >= 0
    ensures !Within(lower + i * incr, upper, incr)
    ensures Iterations(lower + i * incr, Clip(bound, upper, incr), incr) == []
  {
    StepsMonotone(0, i, incr);
  }

  /** No loop has fewer than no iterations, nor more than the runtime counts. */
  lemma TripsBounds(lower: int, upper: int, incr: int)
    requires incr != 0
    ensures Trips(lower, upper, incr) >= 0
    ensures if Within(lower, upper, incr) then TripCount(lower, upper, incr) >= 1
            else TripCount(lower, upper, incr) <= 1
  {
    if Within(lower, upper, incr) {
      TripCountBounds(lower, upper, incr);
    } else if incr > 0 {
      DivBounds(lower - upper, incr);
    } else {
      DivBounds(upper - lower, -incr);
    }
  }

  /** Iteration number i is one of the loop's exactly when it is below the number of iterations. */
  lemma WithinIffBelowTrips(lower: int, upper: int, incr: int, i: int)
    requires incr != 0 && i >= 0
    ensures Within(lower + i * incr, upper, incr) <==> i < Trips(lower, upper, incr)
  {
    if Within(lower, upper, incr) {
      WithinIffBelowTrip(lower, upper, incr, i);
    } else {
      BeyondLoop(lower, upper, incr, i, upper);
    }
  }

  /** The whole loop, in order. */
  lemma WholeLoop(lower: int, upper: int, incr: int)
    requires incr != 0
    ensures Iterations(lower, upper, incr) == Values(lower, incr, 0, Trips(lower, upper, incr))
  {
    if Within(lower, upper, incr) {
      TripCountBounds(lower, upper, incr);
      LoopIsValues(lower, upper, incr, 0);
    }
  }

  /** A chunk of iterations a up to b, clipped to the loop's bound, is just the part of it inside the loop. */
  lemma ClippedChunk(lower: int, upper: int, incr: int, a: int, b: int)
    requires incr != 0 && 0 <= a < b
    ensures Iterations(lower + a * incr, Clip(lower + (b - 1) * incr, upper, incr), incr)
            == Values(lower, incr, a, Min(b, Trips(lower, upper, incr)))
  {
    if Within(lower, upper, incr) {
      ChunkInLoop(lower, upper, incr, a, b);
    } else {
      BeyondLoop(lower, upper, incr, a, lower + (b - 1) * incr);
    }
  }

  lemma ChunkInLoop(lower: int, upper: int, incr: int, a: int, b: int)
    requires incr != 0 && Within(lower, upper, incr) && 0 <= a < b
    ensures Iterations(lower + a * incr, Clip(lower + (b - 1) * incr, upper, incr), incr)
            == Values(lower, incr, a, Min(b, TripCount(lower, upper, incr)))
  {
    var n := TripCount(lower, upper, incr);
    WithinIffBelowTrip(lower, upper, incr, b - 1);
    if b <= n {
      ChunkIsValues(lower, incr, a, b);
    } else {
      assert Clip(lower + (b - 1) * incr, upper, incr) == upper;
      if a <= n {
        LoopIsValues(lower, upper, incr, a);
      } else {
        WithinIffBelowTrip(lower, upper, incr, a);
      }
    }
  }

  lemma {:induction false} ChunkIsValues(lower: int, incr: int, a: int, b: int)
    requires incr != 0 && a <= b
    ensures Iterations(lower + a * incr, lower + (b - 1) * incr, incr) == Values(lower, incr, a, b)
    decreases b - a
  {
    StepsMonotone(a, b, incr);
    if a < b {
      StepsMonotone(a, b - 1, incr);
      ChunkIsValues(lower, incr, a + 1, b);
      FirstValue(lower, incr, a, b);
    } else {
      assert (b - 1) * incr == b * incr - incr;
    }
  }

  // ---------- cutting a loop into ranges ----------

  /** All the ranges between successive cuts, one after the other. */
  function Pieces(lower: int, incr: int, cuts: seq<int>): seq<int>
    requires |cuts| >= 1
  {
    if |cuts| == 1 then []
    else Pieces(lower, incr, cuts[..|cuts| - 1]) + Values(lower, incr, cuts[|cuts| - 2], cuts[|cuts| - 1])
  }

  predicate Ascending(cuts: seq<int>) {
    forall i :: 0 <= i < |cuts| - 1 ==> cuts[i] <= cuts[i + 1]
  }

  /** Ranges cut at ascending places make up the whole, each iteration once and in order. */
  lemma {:induction false} PiecesMakeWhole(lower: int, incr: int, cuts: seq<int>)
    requires |cuts| >= 1 && Ascending(cuts)
    ensures cuts[0] <= cuts[|cuts| - 1]
    ensures Pieces(lower, incr, cuts) == Values(lower, incr, cuts[0], cuts[|cuts| - 1])
  {
    if |cuts| <= 1 {
    } else {
      var rest := cuts[..|cuts| - 1];
      PiecesMakeWhole(lower, incr, rest);
      assert cuts[|cuts| - 2] <= cuts[|cuts| - 2 + 1];
      var a, b, c := cuts[0], cuts[|cuts| - 2], cuts[|cuts| - 1];
      ValuesJoin(lower, incr, a, b, c);
    }
  }

  lemma ValuesJoin(lower: int, incr: int, a: int, b: int, c: int)
    requires a <= b <= c
    ensures Values(lower, incr, a, b) + Values(lower, incr, b, c) == Values(lower, incr, a, c)
  {
    var v, w := Values(lower, incr, a, b) + Values(lower, incr, b, c), Values(lower, incr, a, c);
    forall k | 0 <= k < c - a ensures v[k] == w[k] {
      if k >= b - a {
        assert b + (k - (b - a)) == a + k;
      }
    }
  }
}
