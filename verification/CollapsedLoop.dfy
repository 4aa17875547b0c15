/**
Collapsed loops: a nest of loops run as one, its linear index taken apart level by level with the lengths of the
levels as radices.
*/
module CollapsedLoop {
  import opened Arith
  import opened LoopSpace
  import opened StaticSchedule
  import opened DynamicSchedule
  import OrderedLoop

  const TWO32 := 0x1_0000_0000
  const TWO31 := 0x8000_0000

  /** A level as the compiler describes it; 32-bit levels pass their bounds as unsigned words. */
  datatype Level = Level(is64: bool, lower: int, upper: int, incr: int)

  function Unsigned(x: int): int {
    if x < 0 then x + TWO32 else x
  }

  /** The cast to a 32-bit signed integer. */
  function Signed(x: int): int {
    var w := x % TWO32;
    if w >= TWO31 then w - TWO32 else w
  }

  /** Of a 32-bit level, the bounds as they are stored. */
  function StoredLower(v: Level): int {
    if v.is64 then v.lower else Unsigned(v.lower)
  }

  function StoredUpper(v: Level): int {
    if v.is64 then v.upper else Unsigned(v.upper)
  }

  predicate ValidLevel(v: Level) {
    && v.incr != 0
    && (!v.is64 ==> -TWO31 <= v.lower < TWO31 && -TWO31 <= v.upper < TWO31 && -TWO31 <= v.incr < TWO31)
  }

  /** What is left of a count in the unsigned word it is computed in; 64-bit words are modelled as unbounded. */
  function InWord(v: Level, n: nat): nat {
    if v.is64 then n else n % TWO32
  }

  /** The number of iterations of a level, as the runtime computes it from the stored bounds. */
  function Length(v: Level): (n: nat)
    requires v.incr != 0
  {
    var (lo, up) := (StoredLower(v), StoredUpper(v));
    if v.incr > 0 then
      if up >= lo then DivBounds(up - lo, v.incr); InWord(v, (up - lo) / v.incr + 1) else 0
    else
      if up <= lo then DivBounds(lo - up, -v.incr); InWord(v, (lo - up) / -v.incr + 1) else 0
  }

  // ---------- the length of a level ----------

  lemma LoopLength(lower: int, upper: int, incr: int)
    requires incr != 0
    ensures |Iterations(lower, upper, incr)| == Trips(lower, upper, incr)
  {
    WholeLoop(lower, upper, incr);
    TripsBounds(lower, upper, incr);
  }

  /** The same loop at another place has as many iterations. */
  lemma ShiftedLength(v: Level)
    requires ValidLevel(v) && (v.is64 || (v.lower < 0) == (v.upper < 0))
    ensures Length(v) == |Iterations(v.lower, v.upper, v.incr)|
  {
    LoopLength(v.lower, v.upper, v.incr);
    assert StoredUpper(v) - StoredLower(v) == v.upper - v.lower;
    if !v.is64 && Within(v.lower, v.upper, v.incr) {
      var (d, step) := if v.incr > 0 then (v.upper - v.lower, v.incr) else (v.lower - v.upper, -v.incr);
      QuotientAtMost(d, step);
      ModSmall(d / step + 1, TWO32);
    }
  }

  lemma QuotientAtMost(d: int, step: int)
    requires d >= 0 && step >= 1
    ensures 0 <= d / step <= d && (step > 1 && d > 0 ==> d / step < d)
  {
    DivBounds(d, step);
    StepsMonotone(1, step, d / step);
    if step > 1 { StepsMonotone(2, step, d / step); }
  }

  /** The two empty unit loops next to zero: their count wraps round to 0 in a 32-bit word. */
  predicate WrapsToZero(v: Level) {
    (v.lower == 0 && v.upper == -1 && v.incr == 1) || (v.lower == -1 && v.upper == 0 && v.incr == -1)
  }

  predicate CountedRight(v: Level) {
    v.is64 || (v.lower < 0) == (v.upper < 0) || WrapsToZero(v)
  }

  /** A 32-bit level that has iterations and bounds of different signs is counted as empty. */
  lemma MixedSignsLost(v: Level)
    requires ValidLevel(v) && !v.is64 && (v.lower < 0) != (v.upper < 0) && Within(v.lower, v.upper, v.incr)
    ensures Length(v) == 0 < |Iterations(v.lower, v.upper, v.incr)|
  {
    LoopLength(v.lower, v.upper, v.incr);
    TripCountBounds(v.lower, v.upper, v.incr);
  }

  /** One that has no iterations is counted as having some, unless the count wraps. */
  lemma MixedSignsInvented(v: Level)
    requires ValidLevel(v) && !v.is64 && (v.lower < 0) != (v.upper < 0) && !Within(v.lower, v.upper, v.incr)
    ensures |Iterations(v.lower, v.upper, v.incr)| == 0
    ensures Length(v) == 0 <==> WrapsToZero(v)
  {
    var (lo, up) := (StoredLower(v), StoredUpper(v));
    var (d, step) := if v.incr > 0 then (up - lo, v.incr) else (lo - up, -v.incr);
    QuotientAtMost(d, step);
    if d / step + 1 < TWO32 {
      ModSmall(d / step + 1, TWO32);
      if step == 1 { assert d / step == d; }
    } else {
      assert d / step == d == TWO32 - 1;
    }
  }

  /** A level is counted right exactly when it is a 64-bit one, or its bounds have the same sign, or its count wraps. */
  lemma LengthRightIff(v: Level)
    requires ValidLevel(v)
    ensures Length(v) == |Iterations(v.lower, v.upper, v.incr)| <==> CountedRight(v)
  {
    if v.is64 || (v.lower < 0) == (v.upper < 0) {
      ShiftedLength(v);
    } else if Within(v.lower, v.upper, v.incr) {
      MixedSignsLost(v);
    } else {
      MixedSignsInvented(v);
    }
  }

  /** For example the eleven iterations from -5 to 5 are counted as none. */
  lemma MinusFiveToFive()
    ensures Length(Level(false, -5, 5, 1)) == 0 && |Iterations(-5, 5, 1)| == 11
  {
    LoopLength(-5, 5, 1);
  }

  /** And the empty loop from 5 to -5 is counted as having 4294967287. */
  lemma FiveToMinusFive()
    ensures Length(Level(false, 5, -5, 1)) == 4294967287 && |Iterations(5, -5, 1)| == 0
  {
  }

  // ---------- taking the index apart ----------

  function Product(lens: seq<nat>): nat {
    if lens == [] then 1 else Product(lens[..|lens| - 1]) * lens[|lens| - 1]
  }

  predicate Nonempty(lens: seq<nat>) {
    lens != [] && forall i :: 0 <= i < |lens| ==> lens[i] >= 1
  }

  /** The position at each level; the outermost takes what is left over. */
  function Digits(lens: seq<nat>, x: nat): (d: seq<nat>)
    requires Nonempty(lens)
    ensures |d| == |lens|
  {
    var n := |lens| - 1;
    if n == 0 then [x]
    else
      DivBounds(x, lens[n]);
      Digits(lens[..n], x / lens[n]) + [x % lens[n]]
  }

  function Index(lens: seq<nat>, d: seq<nat>): nat
    requires Nonempty(lens) && |d| == |lens|
  {
    var n := |lens| - 1;
    if n == 0 then d[0] else Index(lens[..n], d[..n]) * lens[n] + d[n]
  }

  /** A place in the nest: every position within its level. */
  predicate InNest(lens: seq<nat>, d: seq<nat>) {
    |d| == |lens| && forall i :: 0 <= i < |lens| ==> d[i] < lens[i]
  }

  /** The next inner index is below len times the next outer one. */
  lemma QuotientBelow(x: nat, len: nat, p: nat)
    requires len >= 1
    ensures x < p * len <==> x / len < p
  {
    DivBounds(x, len);
    ChunkNumber(x, len, p);
  }

  /** An index below the product lands in the nest. */
  lemma {:induction false} DigitsInNest(lens: seq<nat>, x: nat)
    requires Nonempty(lens) && x < Product(lens)
    ensures InNest(lens, Digits(lens, x))
  {
    var n := |lens| - 1;
    if n == 0 {
      assert lens[..0] == [];
    } else {
      QuotientBelow(x, lens[n], Product(lens[..n]));
      DivBounds(x, lens[n]);
      DigitsInNest(lens[..n], x / lens[n]);
    }
  }

  /** Putting the digits together gives the index back ... */
  lemma {:induction false} IndexOfDigits(lens: seq<nat>, x: nat)
    requires Nonempty(lens)
    ensures Index(lens, Digits(lens, x)) == x
  {
    var n := |lens| - 1;
    if n == 0 {
    } else {
      DivBounds(x, lens[n]);
      var d := Digits(lens, x);
      assert d[..n] == Digits(lens[..n], x / lens[n]);
      IndexOfDigits(lens[..n], x / lens[n]);
    }
  }

  /** ... and taking the index of a place apart gives the place back. */
  lemma {:induction false} DigitsOfIndex(lens: seq<nat>, d: seq<nat>)
    requires Nonempty(lens) && InNest(lens, d)
    ensures Index(lens, d) < Product(lens) && Digits(lens, Index(lens, d)) == d
  {
    var n := |lens| - 1;
    if n == 0 {
      assert lens[..0] == [];
    } else {
      var outer := Index(lens[..n], d[..n]);
      DigitsOfIndex(lens[..n], d[..n]);
      DivModUnique(outer * lens[n] + d[n], lens[n], outer, d[n]);
      QuotientBelow(outer * lens[n] + d[n], lens[n], Product(lens[..n]));
      assert d == d[..n] + [d[n]];
    }
  }

  /** One place comes before another in the order of the nested loops. */
  predicate Earlier(a: seq<nat>, b: seq<nat>)
    requires |a| == |b|
    decreases |a|
  {
    a != [] && var n := |a| - 1; Earlier(a[..n], b[..n]) || (a[..n] == b[..n] && a[n] < b[n])
  }

  /** The linear index follows the order of the nested loops. */
  lemma {:induction false} IndexFollowsNest(lens: seq<nat>, x: nat, y: nat)
    requires Nonempty(lens) && x < y
    ensures Earlier(Digits(lens, x), Digits(lens, y))
  {
    var n := |lens| - 1;
    var a, b := Digits(lens, x), Digits(lens, y);
    if n == 0 {
      assert a[..0] == b[..0];
    } else {
      DivBounds(x, lens[n]);
      DivMonotone(x, y, lens[n]);
      assert a[..n] == Digits(lens[..n], x / lens[n]) && b[..n] == Digits(lens[..n], y / lens[n]);
      if x / lens[n] < y / lens[n] {
        IndexFollowsNest(lens[..n], x / lens[n], y / lens[n]);
      } else {
        SameQuotient(x, y, lens[n]);
      }
    }
  }

  lemma SameQuotient(x: nat, y: nat, n: nat)
    requires n >= 1 && x < y && x / n == y / n
    ensures x % n < y % n
  {
  }

  /** Where the whole nest begins: at the first place of every level. */
  lemma {:induction false} DigitsOfZero(lens: seq<nat>, i: nat)
    requires Nonempty(lens) && i < |lens|
    ensures Digits(lens, 0)[i] == 0
  {
    var n := |lens| - 1;
    if n == 0 {
    } else {
      ModSmall(0, lens[n]);
      DivModUnique(0, lens[n], 0, 0);
      if i < n { DigitsOfZero(lens[..n], i); }
    }
  }

  /** Where it ends: one past the last place of the outermost level, at the first place of the others. */
  lemma {:induction false} DigitsOfProduct(lens: seq<nat>, i: nat)
    requires Nonempty(lens) && i < |lens|
    ensures Digits(lens, Product(lens))[i] == if i == 0 then lens[0] else 0
  {
    var n := |lens| - 1;
    if n == 0 {
      assert lens[..0] == [];
    } else {
      DivModUnique(Product(lens), lens[n], Product(lens[..n]), 0);
      if i < n {
        DigitsOfProduct(lens[..n], i);
      }
    }
  }

  // ---------- the methods of the runtime ----------

  /** The lengths of all levels, and the length of the whole nest; right if all levels are counted right. */
  method LoopInfoInit(levels: seq<Level>) returns (lens: seq<nat>, iterCount: nat)
    requires forall i :: 0 <= i < |levels| ==> levels[i].incr != 0
    ensures |lens| == |levels| && forall i :: 0 <= i < |levels| ==> lens[i] == Length(levels[i])
    ensures forall i :: 0 <= i < |levels| && ValidLevel(levels[i]) && CountedRight(levels[i]) ==>
      lens[i] == |Iterations(levels[i].lower, levels[i].upper, levels[i].incr)|
    ensures iterCount == Product(lens)
  {
    lens, iterCount := [], 1;
    for i := 0 to |levels|
      invariant |lens| == i && forall j :: 0 <= j < i ==> lens[j] == Length(levels[j])
      invariant iterCount == Product(lens)
    {
      var v := levels[i];
      var lo, up := StoredLower(v), StoredUpper(v);
      var len: nat := 0;
      if v.incr > 0 {
        if up >= lo {
          DivBounds(up - lo, v.incr);
          len := InWord(v, (up - lo) / v.incr + 1);
        }
      } else if up <= lo {
        DivBounds(lo - up, -v.incr);
        len := InWord(v, (lo - up) / -v.incr + 1);
      }
      assert (lens + [len])[..i] == lens;
      lens := lens + [len];
      iterCount := iterCount * len;
    }
    forall i | 0 <= i < |levels| && ValidLevel(levels[i])
      ensures CountedRight(levels[i]) ==> lens[i] == |Iterations(levels[i].lower, levels[i].upper, levels[i].incr)|
    {
      LengthRightIff(levels[i]);
    }
  }

  /** The value of a level's variable at position d, with the cast of 32-bit levels. */
  function LevelValue(v: Level, d: int): int {
    var x := StoredLower(v) + v.incr * d;
    if v.is64 then x else Signed(x)
  }

  /** The cast undoes the unsigned reading of the bounds. */
  lemma CastRestores(v: Level, d: int)
    requires ValidLevel(v) && -TWO31 <= v.lower + v.incr * d < TWO31
    ensures v.is64 || LevelValue(v, d) == v.lower + v.incr * d
  {
    if !v.is64 {
      var x := v.lower + v.incr * d;
      var w := StoredLower(v) + v.incr * d;
      assert w == x || w == x + TWO32;
      if x >= 0 {
        DivModUnique(w, TWO32, if w == x then 0 else 1, x);
      } else {
        DivModUnique(w, TWO32, if w == x then -1 else 0, x + TWO32);
      }
    }
  }

  /**
  b is the value of the level's variable at position d: the lower bound and d increments, as far as 32-bit levels can
  hold that; and where the level has an iteration number d, just what the loop statement gives the variable there.
  */
  predicate IsValueAt(v: Level, d: nat, b: int)
    requires ValidLevel(v)
  {
    var (x, all) := (v.lower + v.incr * d, Iterations(v.lower, v.upper, v.incr));
    && (v.is64 || -TWO31 <= x < TWO31 ==> b == x)
    && (d < |all| ==> b == all[d])
  }

  /** What is handed out is the value at that position, for 32-bit and for 64-bit levels. */
  lemma LevelValueIs(v: Level, d: nat)
    requires ValidLevel(v)
    ensures IsValueAt(v, d, LevelValue(v, d))
  {
    var x := v.lower + v.incr * d;
    if -TWO31 <= x < TWO31 { CastRestores(v, d); }
    WholeLoop(v.lower, v.upper, v.incr);
    if d < |Iterations(v.lower, v.upper, v.incr)| {
      assert Iterations(v.lower, v.upper, v.incr)[d] == x by {
        assert v.lower + (0 + d) * v.incr == x;
      }
      if !v.is64 { InsideBounds(v, d); }
    }
  }

  /** The variable of a level with an iteration number d stays between the level's bounds. */
  lemma InsideBounds(v: Level, d: nat)
    requires ValidLevel(v) && d < Trips(v.lower, v.upper, v.incr)
    ensures var x := v.lower + v.incr * d; v.lower <= x <= v.upper || v.upper <= x <= v.lower
  {
    WithinIffBelowTrips(v.lower, v.upper, v.incr, d);
    StepsMonotone(0, d, v.incr);
    assert d * v.incr == v.incr * d;
  }

  /** The bounds handed out for the linear range from myLower up to myUpper, level by level from the inside. */
  method RangeBounds(levels: seq<Level>, lens: seq<nat>, myLower: nat, myUpper: nat)
      returns (lbs: array<int>, ubs: array<int>)
    requires |levels| == |lens| && Nonempty(lens)
    ensures lbs.Length == ubs.Length == |lens|
    ensures forall i :: 0 <= i < |lens| ==> lbs[i] == LevelValue(levels[i], Digits(lens, myLower)[i])
    ensures forall i :: 0 <= i < |lens| ==> ubs[i] == LevelValue(levels[i], Digits(lens, myUpper)[i])
    ensures forall i :: 0 <= i < |lens| && ValidLevel(levels[i]) ==>
      && IsValueAt(levels[i], Digits(lens, myLower)[i], lbs[i])
      && IsValueAt(levels[i], Digits(lens, myUpper)[i], ubs[i])
  {
    var n := |lens|;
    lbs, ubs := new int[n], new int[n];
    var lower, upper := myLower, myUpper;
    var i := n;
    assert Digits(lens, myLower)[..n] == Digits(lens[..n], lower)
        && Digits(lens, myUpper)[..n] == Digits(lens[..n], upper) by {
      assert lens[..n] == lens;
    }
    while i > 0
      invariant 0 <= i <= n
      invariant forall j :: i <= j < n ==> lbs[j] == LevelValue(levels[j], Digits(lens, myLower)[j])
      invariant forall j :: i <= j < n ==> ubs[j] == LevelValue(levels[j], Digits(lens, myUpper)[j])
      invariant i > 0 ==> Digits(lens, myLower)[..i] == Digits(lens[..i], lower)
      invariant i > 0 ==> Digits(lens, myUpper)[..i] == Digits(lens[..i], upper)
    {
      i := i - 1;
      LastDigit(lens, myLower, i, lower);
      LastDigit(lens, myUpper, i, upper);
      lbs[i] := LevelValue(levels[i], if i == 0 then lower else lower % lens[i]);
      lower := lower / lens[i];
      ubs[i] := LevelValue(levels[i], if i == 0 then upper else upper % lens[i]);
      upper := upper / lens[i];
    }
    forall j | 0 <= j < n && ValidLevel(levels[j])
      ensures IsValueAt(levels[j], Digits(lens, myLower)[j], lbs[j])
      ensures IsValueAt(levels[j], Digits(lens, myUpper)[j], ubs[j])
    {
      LevelValueIs(levels[j], Digits(lens, myLower)[j]);
      LevelValueIs(levels[j], Digits(lens, myUpper)[j]);
    }
  }

  /** The digit of level i, when the digits up to it are those of y; and what is left for the levels outside it. */
  lemma LastDigit(lens: seq<nat>, x: nat, i: nat, y: nat)
    requires Nonempty(lens) && i < |lens| && Digits(lens, x)[..i + 1] == Digits(lens[..i + 1], y)
    ensures Digits(lens, x)[i] == if i == 0 then y else y % lens[i]
    ensures y / lens[i] >= 0 && (i > 0 ==> Digits(lens, x)[..i] == Digits(lens[..i], y / lens[i]))
  {
    var d := Digits(lens, x);
    DivBounds(y, lens[i]);
    assert d[i] == d[..i + 1][i];
    if i > 0 {
      assert lens[..i + 1][..i] == lens[..i];
      assert d[..i] == d[..i + 1][..i];
    }
  }

  /** Taking 0 and the iteration count apart: all first positions, and one past the last of the outermost level. */
  lemma EndsOfNest(lens: seq<nat>, i: nat)
    requires Nonempty(lens) && i < |lens|
    ensures Digits(lens, 0)[i] == 0
    ensures Digits(lens, Product(lens))[i] == if i == 0 then lens[0] else 0
  {
    DigitsOfZero(lens, i);
    DigitsOfProduct(lens, i);
  }

  /**
  The bounds handed out when one thread runs the whole nest.  In a nest without empty levels they are those of the
  range from 0 to the iteration count.
  */
  method FullLoopBounds(levels: seq<Level>, lens: seq<nat>) returns (lbs: array<int>, ubs: array<int>)
    requires |levels| == |lens|
    ensures lbs.Length == ubs.Length == |lens|
    ensures forall i :: 0 <= i < |lens| ==>
      lbs[i] == LevelValue(levels[i], 0) && ubs[i] == LevelValue(levels[i], if i == 0 then lens[0] else 0)
    ensures Nonempty(lens) ==> forall i :: 0 <= i < |lens| ==>
      && lbs[i] == LevelValue(levels[i], Digits(lens, 0)[i])
      && ubs[i] == LevelValue(levels[i], Digits(lens, Product(lens))[i])
    ensures forall i :: 0 <= i < |lens| && ValidLevel(levels[i]) ==>
      IsValueAt(levels[i], 0, lbs[i]) && IsValueAt(levels[i], if i == 0 then lens[0] else 0, ubs[i])
  {
    var n := |lens|;
    lbs, ubs := new int[n], new int[n];
    var i := n;
    while i > 0
      invariant 0 <= i <= n
      invariant forall j :: i <= j < n ==>
        lbs[j] == LevelValue(levels[j], 0) && ubs[j] == LevelValue(levels[j], if j == 0 then lens[0] else 0)
    {
      i := i - 1;
      lbs[i] := LevelValue(levels[i], 0);
      ubs[i] := LevelValue(levels[i], if i == 0 then lens[i] else 0);
    }
    forall j | 0 <= j < n && ValidLevel(levels[j])
      ensures IsValueAt(levels[j], 0, lbs[j]) && IsValueAt(levels[j], if j == 0 then lens[0] else 0, ubs[j])
    {
      LevelValueIs(levels[j], 0);
      LevelValueIs(levels[j], if j == 0 then lens[0] else 0);
    }
    if Nonempty(lens) {
      forall j | 0 <= j < n
        ensures Digits(lens, 0)[j] == 0 && Digits(lens, Product(lens))[j] == if j == 0 then lens[0] else 0
      {
        EndsOfNest(lens, j);
      }
    }
  }

  // ---------- the ranges of the schedules ----------

  /** Where the even ranges begin: the remainder is spread over the team. */
  function EvenStart(iterCount: nat, team: nat, t: nat): int
    requires team >= 1
  {
    iterCount / team * t + (iterCount % team * t) / team
  }

  method EvenRange(iterCount: nat, team: nat, tid: nat) returns (myLower: int, myUpper: int, more: bool)
    requires team >= 2 && tid < team
    ensures myLower == EvenStart(iterCount, team, tid) && myUpper == EvenStart(iterCount, team, tid + 1)
    ensures more == (myLower < myUpper)
  {
    var remainder := iterCount % team;
    var mark0 := (remainder * tid) / team;
    var mark1 := (remainder * (tid + 1)) / team;
    myLower := iterCount / team * tid + mark0;
    myUpper := iterCount / team * (tid + 1) + mark1;
    more := myLower != myUpper;
    EvenSize(iterCount, team, tid);
  }

  /** Each mark is the one before, or one more. */
  lemma EvenSize(iterCount: nat, team: nat, t: nat)
    requires team >= 1
    ensures 0 <= EvenStart(iterCount, team, t + 1) - EvenStart(iterCount, team, t) - iterCount / team <= 1
    ensures iterCount / team >= 0
  {
    var q, r := iterCount / team, iterCount % team;
    DivBounds(iterCount, team);
    assert q * (t + 1) == q * t + q && r * (t + 1) == r * t + r;
    DivMonotone(r * t, r * t + r, team);
    QuotientStep(r * t, r, team);
  }

  lemma QuotientStep(x: int, r: int, n: nat)
    requires x >= 0 && 0 <= r < n
    ensures (x + r) / n <= x / n + 1
  {
    DivBounds(x, n);
    ChunkNumber(x + r, n, x / n + 2);
    assert (x / n + 2) * n == (x / n) * n + 2 * n;
  }

  function EvenStarts(iterCount: nat, team: nat): (cuts: seq<int>)
    requires team >= 1
    ensures |cuts| == team + 1
  {
    seq(team + 1, t requires 0 <= t => EvenStart(iterCount, team, t))
  }

  lemma EvenEnds(iterCount: nat, team: nat)
    requires team >= 1
    ensures EvenStart(iterCount, team, 0) == 0 && EvenStart(iterCount, team, team) == iterCount
  {
    var q, r := iterCount / team, iterCount % team;
    assert iterCount == q * team + r;
    DivModUnique(r * team, team, r, 0);
    DivModUnique(r * 0, team, 0, 0);
  }

  /** Static-even: the ranges in thread order make up the nest, and no two differ by more than one iteration. */
  lemma EvenPartition(iterCount: nat, team: nat, t: nat, u: nat)
    requires team >= 1 && t < team && u < team
    ensures Pieces(0, 1, EvenStarts(iterCount, team)) == Values(0, 1, 0, iterCount)
    ensures -1 <= (EvenStart(iterCount, team, t + 1) - EvenStart(iterCount, team, t))
                - (EvenStart(iterCount, team, u + 1) - EvenStart(iterCount, team, u)) <= 1
  {
    var cuts := EvenStarts(iterCount, team);
    forall i | 0 <= i < |cuts| - 1 ensures cuts[i] <= cuts[i + 1] {
      EvenSize(iterCount, team, i);
    }
    EvenEnds(iterCount, team);
    PiecesMakeWhole(0, 1, cuts);
    EvenSize(iterCount, team, t);
    EvenSize(iterCount, team, u);
  }

  /** A range from the shared counter: the k-th of the plan, clipped here and not by the caller. */
  method SharedRange(kind: Kind, team: nat, chunkSize: int, iterCount: nat, lowerBound: int, ghost k: nat)
    returns (more: bool, myLower: int, myUpper: int, newBound: int)
    requires kind.Dynamic? || kind.Guided?
    requires team >= 1 && chunkSize >= 1 && k < |Cuts(kind, team, chunkSize, iterCount, 0)|
    requires lowerBound == Min(Cuts(kind, team, chunkSize, iterCount, 0)[k], iterCount)
    ensures var cuts := Cuts(kind, team, chunkSize, iterCount, 0);
      && more == (k + 1 < |cuts|)
      && (more ==> myLower == Clipped(cuts, iterCount)[k] && myUpper == newBound == Clipped(cuts, iterCount)[k + 1])
      && (!more ==> newBound == lowerBound)
  {
    CutsChain(kind, team, chunkSize, iterCount, 0, k);
    myLower := lowerBound;
    if myLower >= iterCount {
      return false, 0, 0, lowerBound;
    }
    var chunk := chunkSize;
    if kind.Guided? {
      chunk := (iterCount - myLower) / (2 * team);
      if chunk < chunkSize {
        chunk := chunkSize;
      }
    }
    myUpper := myLower + chunk;
    if myUpper > iterCount {
      myUpper := iterCount;
    }
    more, newBound := true, myUpper;
  }

  /** Dynamic and guided: the ranges in the order they are granted make up the nest. */
  lemma SharedPartition(kind: Kind, team: nat, chunkSize: int, iterCount: nat)
    requires team >= 1 && chunkSize >= 1
    ensures Pieces(0, 1, Clipped(Cuts(kind, team, chunkSize, iterCount, 0), iterCount)) == Values(0, 1, 0, iterCount)
  {
    ClippedPieces(kind, team, chunkSize, iterCount, 0, 1);
  }

  /** Static: a thread's k-th range is its k-th chunk, clipped here. */
  method StaticRange(team: nat, chunk: nat, iterCount: nat, tid: nat, scheduleCount: nat)
    returns (more: bool, myLower: int, myUpper: int, newCount: nat)
    requires tid < team && chunk >= 1
    ensures var c := Turn(tid, team, scheduleCount);
      && more == (c * chunk < iterCount) && newCount == (if more then scheduleCount + 1 else scheduleCount)
      && (more ==> myLower == c * chunk && myUpper == Min((c + 1) * chunk, iterCount))
  {
    myLower := scheduleCount * chunk * team + tid * chunk;
    DealIndex(tid, team, chunk, 1, scheduleCount);
    var c := tid + scheduleCount * team;
    assert (c + 1) * chunk == c * chunk + chunk;
    if myLower >= iterCount {
      return false, myLower, 0, scheduleCount;
    }
    myUpper := myLower + chunk;
    if myUpper > iterCount {
      myUpper := iterCount;
    }
    more, newCount := true, scheduleCount + 1;
  }

  /** Index x is in thread tid's k-th range exactly when chunk x / chunk is the one dealt to tid in round k. */
  lemma StaticPartition(team: nat, chunk: nat, iterCount: nat, x: nat, tid: nat, k: nat)
    requires tid < team && chunk >= 1 && x < iterCount
    ensures var c := Turn(tid, team, k);
      c * chunk <= x < Min((c + 1) * chunk, iterCount) <==> tid == x / chunk % team && k == x / chunk / team
  {
    var c := Turn(tid, team, k);
    DivBounds(x, chunk);
    if c * chunk <= x < (c + 1) * chunk {
      DivModUnique(x, chunk, c, x - c * chunk);
      DivModUnique(c, team, k, tid);
    }
    assert x / chunk == (x / chunk / team) * team + x / chunk % team;
  }

  // ---------- ordered ----------

  /** Dynamic, guided and static: the clipped ranges, counted as they are, are a plan for an ordered loop. */
  lemma OrderedPlans(kind: Kind, team: nat, chunk: nat, iterCount: nat)
    requires team >= 1 && chunk >= 1
    ensures OrderedLoop.ValidPlan(Clipped(Cuts(kind, team, chunk, iterCount, 0), iterCount), iterCount)
    ensures OrderedLoop.ValidPlan(
      Clipped(OrderedLoop.EqualChunks(OrderedLoop.StaticChunks(iterCount, chunk), chunk), iterCount), iterCount)
  {
    OrderedLoop.DynamicPlan(kind, team, chunk, iterCount);
    OrderedLoop.ClippedStaticPlan(iterCount, chunk);
  }

  /** Static-even: with at least one iteration for each thread the even ranges are a plan ... */
  lemma EvenPlanValid(iterCount: nat, team: nat)
    requires team >= 1 && iterCount >= team
    ensures OrderedLoop.ValidPlan(EvenStarts(iterCount, team), iterCount)
  {
    var cuts := EvenStarts(iterCount, team);
    EvenEnds(iterCount, team);
    DivBounds(iterCount, team);
    ChunkNumber(iterCount, team, 1);
    forall c | 0 <= c < |cuts| - 1 ensures cuts[c] < cuts[c + 1] {
      EvenSize(iterCount, team, c);
    }
    forall c, d | 0 <= c < d < |cuts| ensures cuts[c] < cuts[d] {
      OrderedLoop.RisesThroughout(cuts, c, d);
    }
  }

  /** The loop at its start: each thread is to get the even range with its number. */
  predicate EvenOrdered(s: OrderedLoop.State, iterCount: nat, team: nat)
    requires team >= 1
  {
    && OrderedLoop.Fresh(s) && s.dealt && s.next == 0 && s.takers == [] && |s.threads| == team
    && s.cuts == EvenStarts(iterCount, team) && s.trip == iterCount
  }

  /** ... and with fewer the first range is empty, so that no ordered region of the loop ever runs. */
  lemma TooFewIterationsStall(iterCount: nat, team: nat, s: OrderedLoop.State, schedule: seq<nat>)
    requires 0 < iterCount < team && EvenOrdered(s, iterCount, team)
    ensures OrderedLoop.Exec(s, schedule).log == []
  {
    FirstRangeEmpty(iterCount, team);
    OrderedLoop.EmptyFirstChunk(s, schedule);
  }

  lemma FirstRangeEmpty(iterCount: nat, team: nat)
    requires iterCount < team
    ensures EvenStart(iterCount, team, 0) == EvenStart(iterCount, team, 1) == 0
  {
    DivModUnique(iterCount, team, 0, iterCount);
    DivModUnique(iterCount * 0, team, 0, 0);
  }

  lemma {:induction false} EvenStartsBounded(iterCount: nat, team: nat, c: nat)
    requires team >= 1 && c <= team
    ensures EvenStarts(iterCount, team)[c] <= iterCount
    decreases team - c
  {
    if c == team {
      EvenEnds(iterCount, team);
    } else {
      EvenStartsBounded(iterCount, team, c + 1);
      EvenSize(iterCount, team, c);
    }
  }

  lemma EvenStartsZero(team: nat, c: nat)
    requires team >= 1 && c <= team
    ensures EvenStarts(0, team)[c] == 0
  {
    DivModUnique(0, team, 0, 0);
    assert 0 / team * c == 0 && 0 % team * c == 0;
  }

  /**
  The even ranges are run right, in order and to the end and without deadlock, in every run of the ordered loop if
  and only if there is no iteration at all or at least one for each thread.
  */
  lemma EvenOrderedRightIff(iterCount: nat, team: nat, s: OrderedLoop.State)
    requires team >= 1 && EvenOrdered(s, iterCount, team)
    ensures OrderedLoop.RunsRight(s) <==> !(0 < iterCount < team)
  {
    if iterCount >= team {
      EvenPlanValid(iterCount, team);
      OrderedLoop.ValidPlanRunsRight(s);
    } else if iterCount > 0 {
      FirstRangeEmpty(iterCount, team);
      forall c | 0 <= c < |s.cuts| ensures s.cuts[c] <= iterCount {
        EvenStartsBounded(iterCount, team, c);
      }
      forall c | 0 <= c < |s.cuts| - 1 ensures s.cuts[c] <= s.cuts[c + 1] {
        EvenSize(iterCount, team, c);
      }
      OrderedLoop.FirstEmptyDeadlocks(s);
    } else {
      forall c | 0 <= c < |s.cuts| ensures s.cuts[c] == 0 {
        EvenStartsZero(team, c);
      }
      OrderedLoop.IdleRunsRight(s);
    }
  }
}
