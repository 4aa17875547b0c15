/** The sequential double-ended queue that every deque of the runtime stands for. */
module Deque {

  type Item = int

  datatype Option<T> = None | Some(value: T)

  /** An operation together with the answer it gave, or none. */
  datatype Op =
    | Silent
    | PutHead(item: Item, accepted: bool) | PutTail(item: Item, accepted: bool)
    | GetHead(result: Option<Item>) | GetTail(result: Option<Item>)

  datatype Replayed = Legal(deque: seq<Item>) | Illegal

  /** At most `capacity` items fit; a growing queue has no such limit. */
  predicate HasRoom(capacity: Option<nat>, q: seq<Item>) {
    capacity.Some? ==> |q| < capacity.value
  }

  /** The effect of an operation, if its answer is the right one. */
  function Apply(capacity: Option<nat>, q: seq<Item>, op: Op): Replayed {
    match op
    case Silent => Legal(q)
    case PutHead(x, ok) => if ok != HasRoom(capacity, q) then Illegal else Legal(if ok then [x] + q else q)
    case PutTail(x, ok) => if ok != HasRoom(capacity, q) then Illegal else Legal(if ok then q + [x] else q)
    case GetHead(None) => if q == [] then Legal(q) else Illegal
    case GetHead(Some(x)) => if q != [] && q[0] == x then Legal(q[1..]) else Illegal
    case GetTail(None) => if q == [] then Legal(q) else Illegal
    case GetTail(Some(x)) => if q != [] && q[|q| - 1] == x then Legal(q[..|q| - 1]) else Illegal
  }

  function Replay(capacity: Option<nat>, q: seq<Item>, ops: seq<Op>): Replayed
    decreases |ops|
  {
    if ops == [] then Legal(q)
    else match Apply(capacity, q, ops[0])
      case Illegal => Illegal
      case Legal(q') => Replay(capacity, q', ops[1..])
  }

  function PutBy(op: Op): seq<Item> {
    if (op.PutHead? || op.PutTail?) && op.accepted then [op.item] else []
  }

  function ToSeq(r: Option<Item>): seq<Item> {
    if r.Some? then [r.value] else []
  }

  function TakenBy(op: Op): seq<Item> {
    if op.GetHead? || op.GetTail? then ToSeq(op.result) else []
  }

  /** The items of the accepted puts, in order. */
  function Put(ops: seq<Op>): seq<Item> {
    if ops == [] then [] else PutBy(ops[0]) + Put(ops[1..])
  }

  /** The items returned, in order. */
  function Taken(ops: seq<Op>): seq<Item> {
    if ops == [] then [] else TakenBy(ops[0]) + Taken(ops[1..])
  }

  // ---------- counting items ----------

  /** How often v occurs in xs. */
  function Count(xs: seq<Item>, v: Item): nat {
    if xs == [] then 0 else (if xs[|xs| - 1] == v then 1 else 0) + Count(xs[..|xs| - 1], v)
  }

  lemma {:induction false} CountConcat(xs: seq<Item>, ys: seq<Item>, v: Item)
    ensures Count(xs + ys, v) == Count(xs, v) + Count(ys, v)
  {
    if ys == [] {
      assert xs + ys == xs;
    } else {
      assert (xs + ys)[..|xs + ys| - 1] == xs + ys[..|ys| - 1];
      CountConcat(xs, ys[..|ys| - 1], v);
    }
  }

  lemma CountThree(xs: seq<Item>, ys: seq<Item>, zs: seq<Item>, v: Item)
    ensures Count(xs + ys + zs, v) == Count(xs, v) + Count(ys, v) + Count(zs, v)
  {
    CountConcat(xs + ys, zs, v);
    CountConcat(xs, ys, v);
  }

  lemma {:induction false} CountIsMultiplicity(xs: seq<Item>, v: Item)
    ensures Count(xs, v) == multiset(xs)[v]
  {
    if xs == [] {
    } else {
      assert xs == xs[..|xs| - 1] + [xs[|xs| - 1]];
      CountIsMultiplicity(xs[..|xs| - 1], v);
    }
  }

  lemma TakenFirst(op: Op, ops: seq<Op>, v: Item)
    ensures Count(Taken([op] + ops), v) == Count(TakenBy(op), v) + Count(Taken(ops), v)
  {
    assert ([op] + ops)[1..] == ops;
    CountConcat(TakenBy(op), Taken(ops), v);
  }

  // ---------- what the answers say ----------

  /** A get takes an item off its end of the queue, and none only if there is none. */
  lemma GetAnswers(capacity: Option<nat>, q: seq<Item>, q': seq<Item>, r: Option<Item>)
    ensures Apply(capacity, q, GetHead(r)) == Legal(q') <==> q == ToSeq(r) + q' && (r.None? ==> q == [])
    ensures Apply(capacity, q, GetTail(r)) == Legal(q') <==> q == q' + ToSeq(r) && (r.None? ==> q == [])
  {
    if r.Some? && q != [] {
      assert q == [q[0]] + q[1..] == q[..|q| - 1] + [q[|q| - 1]];
      assert q == [r.value] + q' ==> q' == q[1..];
      assert q == q' + [r.value] ==> q' == q[..|q| - 1] && q[|q| - 1] == r.value;
    }
  }

  /** A put adds its item at its end, and is refused exactly by a queue that holds as much as it can. */
  lemma PutAnswers(capacity: Option<nat>, q: seq<Item>, q': seq<Item>, x: Item, ok: bool)
    ensures Apply(capacity, q, PutTail(x, ok)) == Legal(q') <==>
      (ok <==> capacity.None? || |q| < capacity.value) && q' == q + PutBy(PutTail(x, ok))
    ensures Apply(capacity, q, PutHead(x, ok)) == Legal(q') <==>
      (ok <==> capacity.None? || |q| < capacity.value) && q' == PutBy(PutHead(x, ok)) + q
  {
    assert q + [] == q == [] + q;
  }

  // ---------- laws of every legal run ----------

  lemma ApplyConserves(capacity: Option<nat>, q: seq<Item>, op: Op, v: Item)
    requires Apply(capacity, q, op).Legal?
    ensures Count(q, v) + Count(PutBy(op), v) == Count(TakenBy(op), v) + Count(Apply(capacity, q, op).deque, v)
  {
    var q' := Apply(capacity, q, op).deque;
    match op {
      case GetTail(Some(x)) => assert q == q' + [x];
      case GetHead(Some(x)) => assert q == [x] + q'; CountConcat([x], q', v);
      case PutHead(x, _) => CountConcat([x], q, v);
      case _ =>
    }
    CountConcat(q, PutBy(op), v);
  }

  lemma {:induction false} ReplayConserves(capacity: Option<nat>, q: seq<Item>, ops: seq<Op>, v: Item)
    requires Replay(capacity, q, ops).Legal?
    ensures Count(q, v) + Count(Put(ops), v) == Count(Taken(ops), v) + Count(Replay(capacity, q, ops).deque, v)
    decreases |ops|
  {
    if ops == [] {
    } else {
      ApplyConserves(capacity, q, ops[0], v);
      ReplayConserves(capacity, Apply(capacity, q, ops[0]).deque, ops[1..], v);
      CountConcat(PutBy(ops[0]), Put(ops[1..]), v);
      CountConcat(TakenBy(ops[0]), Taken(ops[1..]), v);
    }
  }

  /** Through any run no item is lost, duplicated or invented. */
  lemma RunConserves(capacity: Option<nat>, q: seq<Item>, ops: seq<Op>)
    requires Replay(capacity, q, ops).Legal?
    ensures multiset(q) + multiset(Put(ops)) == multiset(Taken(ops)) + multiset(Replay(capacity, q, ops).deque)
  {
    var q' := Replay(capacity, q, ops).deque;
    forall v ensures multiset(q)[v] + multiset(Put(ops))[v] == multiset(Taken(ops))[v] + multiset(q')[v] {
      ReplayConserves(capacity, q, ops, v);
      CountIsMultiplicity(q, v);
      CountIsMultiplicity(Put(ops), v);
      CountIsMultiplicity(Taken(ops), v);
      CountIsMultiplicity(q', v);
    }
  }

  /** Put at the tail and got from the head, items come out in the order they went in. */
  lemma {:induction false} RunIsFifo(capacity: Option<nat>, q: seq<Item>, ops: seq<Op>)
    requires Replay(capacity, q, ops).Legal?
    requires forall i :: 0 <= i < |ops| ==> ops[i].PutTail? || ops[i].GetHead?
    ensures q + Put(ops) == Taken(ops) + Replay(capacity, q, ops).deque
    decreases |ops|
  {
    if ops == [] {
    } else {
      var q' := Apply(capacity, q, ops[0]).deque;
      RunIsFifo(capacity, q', ops[1..]);
      StepIsFifo(capacity, q, ops[0]);
      Regroup(q, PutBy(ops[0]), Put(ops[1..]), TakenBy(ops[0]), q', Taken(ops[1..]),
          Replay(capacity, q', ops[1..]).deque);
    }
  }

  lemma StepIsFifo(capacity: Option<nat>, q: seq<Item>, op: Op)
    requires Apply(capacity, q, op).Legal? && (op.PutTail? || op.GetHead?)
    ensures q + PutBy(op) == TakenBy(op) + Apply(capacity, q, op).deque
  {
  }

  lemma Regroup(q: seq<Item>, p: seq<Item>, ps: seq<Item>, t: seq<Item>, q': seq<Item>, ts: seq<Item>, q'': seq<Item>)
    requires q + p == t + q' && q' + ps == ts + q''
    ensures q + (p + ps) == (t + ts) + q''
  {
    assert q + (p + ps) == (q + p) + ps == t + (q' + ps) == (t + ts) + q'';
  }

  /** After any put that is accepted, a get at the same end can only return that item and restore the queue. */
  lemma GetUndoesPut(capacity: Option<nat>, q: seq<Item>, x: Item, r: Option<Item>)
    ensures Replay(capacity, q, [PutTail(x, true), GetTail(r)]).Legal? ==>
      r == Some(x) && Replay(capacity, q, [PutTail(x, true), GetTail(r)]) == Legal(q)
    ensures Replay(capacity, q, [PutHead(x, true), GetHead(r)]).Legal? ==>
      r == Some(x) && Replay(capacity, q, [PutHead(x, true), GetHead(r)]) == Legal(q)
  {
    TwoOps(capacity, q, PutTail(x, true), GetTail(r));
    TwoOps(capacity, q, PutHead(x, true), GetHead(r));
  }

  lemma TwoOps(capacity: Option<nat>, q: seq<Item>, a: Op, b: Op)
    ensures Replay(capacity, q, [a, b]) ==
      if Apply(capacity, q, a).Illegal? then Illegal else Apply(capacity, Apply(capacity, q, a).deque, b)
  {
    if Apply(capacity, q, a).Legal? {
      var q' := Apply(capacity, q, a).deque;
      assert [a, b][1..] == [b];
      assert Replay(capacity, q', [b]) ==
        match Apply(capacity, q', b) {
          case Illegal => Illegal
          case Legal(q2) => Replay(capacity, q2, [b][1..])
        };
    }
  }
}
