/**
The compare-and-swap work-stealing deque: one owner works at the tail, any number of thieves
take from the head.  Every volatile access is one step; a schedule is any sequence of steps.
Indices are unbounded, as is the number of thieves.
*/
module LocklessDeque {
  import opened Arith
  import opened Deque

  /** Where the owner is; the arguments are its local variables. */
  datatype OwnerPc =
    | Idle
    | PutReadTail(x: Item, head: int)
    | PutStore(x: Item)
    | PutBump(x: Item)
    | TakeStoreTail(t: int)
    | TakeReadHead(t: int)
    | TakeReadItem(t: int, head: int)
    | TakeCas(t: int, head: int, x: Item)
    | TakeResetRead(t: int, result: Option<Item>)
    | TakeResetStore(t: int, head: int, result: Option<Item>)

  /** Between calls a thief has the answer of its last one. */
  datatype ThiefPc =
    | Away(result: Option<Item>)
    | StealReadTail(head: int)
    | StealReadItem(head: int, tail: int)
    | StealCas(head: int, x: Item)

  /**
  The shared words, the program counters, the answers of the owner's last put and take, and the history of what was
  put and handed out.
  */
  datatype State = State(
    head: int, tail: int, slots: seq<Item>,
    owner: OwnerPc, thieves: seq<ThiefPc>,
    accepted: bool, took: Option<Item>,
    puts: seq<Item>, gets: seq<Item>)

  datatype Action = CallPut(x: Item) | CallTake | OwnerStep | CallSteal(thief: nat) | ThiefStep(thief: nat)

  // ---------- the program ----------

  predicate Init(s: State) {
    && |s.slots| > 0 && s.head == s.tail == 0
    && s.owner == Idle
    && (forall i :: 0 <= i < |s.thieves| ==> s.thieves[i].Away?)
    && s.puts == [] && s.gets == []
  }

  function Slot(s: State, k: int): Item
    requires |s.slots| > 0
  {
    s.slots[k % |s.slots|]
  }

  /** The owner's next access. */
  function OwnerNext(s: State): State
    requires |s.slots| > 0
  {
    match s.owner
    case Idle => s
    case PutReadTail(x, head) =>
      if s.tail - head == |s.slots| - 1 then s.(owner := Idle, accepted := false) else s.(owner := PutStore(x))
    case PutStore(x) => s.(slots := s.slots[s.tail % |s.slots| := x], owner := PutBump(x))
    case PutBump(x) => s.(tail := s.tail + 1, owner := Idle, accepted := true, puts := s.puts + [x])
    case TakeStoreTail(t) => s.(tail := t, owner := TakeReadHead(t))
    case TakeReadHead(t) =>
      if t - s.head < 0 then s.(owner := TakeResetRead(t, None)) else s.(owner := TakeReadItem(t, s.head))
    case TakeReadItem(t, head) =>
      if t - head > 0 then s.(owner := Idle, took := Some(Slot(s, t)), gets := s.gets + [Slot(s, t)])
      else s.(owner := TakeCas(t, head, Slot(s, t)))
    case TakeCas(t, head, x) =>
      if s.head == head then s.(head := head + 1, owner := TakeResetRead(t, Some(x)))
      else s.(owner := TakeResetRead(t, None))
    case TakeResetRead(t, r) => s.(owner := TakeResetStore(t, s.head, r))
    case TakeResetStore(t, head, r) => s.(tail := head, owner := Idle, took := r, gets := s.gets + ToSeq(r))
  }

  /** Thief i's next access. */
  function ThiefNext(s: State, i: nat): State
    requires |s.slots| > 0 && i < |s.thieves|
  {
    match s.thieves[i]
    case Away(_) => s
    case StealReadTail(head) => s.(thieves := s.thieves[i := StealReadItem(head, s.tail)])
    case StealReadItem(head, tail) =>
      s.(thieves := s.thieves[i := if tail - head <= 0 then Away(None) else StealCas(head, Slot(s, head))])
    case StealCas(head, x) =>
      if s.head == head then s.(head := head + 1, thieves := s.thieves[i := Away(Some(x))], gets := s.gets + [x])
      else s.(thieves := s.thieves[i := Away(None)])
  }

  /** One scheduled step; an action whose actor cannot take it leaves the state alone. */
  function Next(s: State, a: Action): State
    requires |s.slots| > 0
  {
    match a
    case CallPut(x) => if s.owner.Idle? then s.(owner := PutReadTail(x, s.head)) else s
    case CallTake => if s.owner.Idle? then s.(owner := TakeStoreTail(s.tail - 1)) else s
    case OwnerStep => OwnerNext(s)
    case CallSteal(i) =>
      if i < |s.thieves| && s.thieves[i].Away? then s.(thieves := s.thieves[i := StealReadTail(s.head)]) else s
    case ThiefStep(i) => if i < |s.thieves| then ThiefNext(s, i) else s
  }

  function Exec(s: State, schedule: seq<Action>): (r: State)
    requires |s.slots| > 0
    ensures |r.slots| == |s.slots|
    decreases |schedule|
  {
    if schedule == [] then s
    else
      assert |Next(s, schedule[0]).slots| == |s.slots|;
      Exec(Next(s, schedule[0]), schedule[1..])
  }

  // ---------- the double-ended sequence it stands for ----------

  /** One past the last item still in the deque, whatever the owner has done to `tail` so far. */
  function Back(s: State): int {
    match s.owner
    case TakeReadHead(t) => t + 1
    case TakeReadItem(t, head) => if head < t then t else t + 1
    case TakeCas(t, _, _) => t + 1
    case TakeResetRead(t, _) => t + 1
    case TakeResetStore(t, _, _) => t + 1
    case _ => s.tail
  }

  /** The slots from index lo up to hi. */
  function Between(s: State, lo: int, hi: int): (c: seq<Item>)
    requires |s.slots| > 0
    ensures |c| == if lo <= hi then hi - lo else 0
    ensures forall i :: 0 <= i < |c| ==> c[i] == Slot(s, lo + i)
  {
    if lo <= hi then seq(hi - lo, i requires 0 <= i => Slot(s, lo + i)) else []
  }

  function Contents(s: State): (c: seq<Item>)
    requires |s.slots| > 0
  {
    Between(s, s.head, Back(s))
  }

  /** An item the owner has already won but not yet handed to its caller. */
  function InHand(s: State): seq<Item>
    requires |s.slots| > 0
  {
    match s.owner
    case TakeReadItem(t, head) => if head < t then [Slot(s, t)] else []
    case TakeResetRead(_, r) => ToSeq(r)
    case TakeResetStore(_, _, r) => ToSeq(r)
    case _ => []
  }

  // ---------- the invariant ----------

  predicate OwnerInv(s: State)
    requires |s.slots| > 0
  {
    match s.owner
    case Idle => true
    case PutReadTail(_, head) => head <= s.head && s.tail - head <= |s.slots| - 1
    case PutStore(_) => s.tail - s.head < |s.slots| - 1
    case PutBump(x) => s.tail - s.head < |s.slots| - 1 && Slot(s, s.tail) == x
    case TakeStoreTail(t) => t == s.tail - 1
    case TakeReadHead(t) => s.tail == t
    case TakeReadItem(t, head) => s.tail == t && head <= s.head && head <= t
    case TakeCas(t, head, x) => s.tail == t == head && head <= s.head && x == Slot(s, t)
    case TakeResetRead(t, _) => s.tail == t && s.head == t + 1
    case TakeResetStore(t, head, _) => s.tail == t && head == s.head == t + 1
  }

  /** A thief that saw items may still win the head slot, and then holds the right item. */
  predicate ThiefInv(s: State, i: nat)
    requires |s.slots| > 0 && i < |s.thieves|
  {
    match s.thieves[i]
    case Away(_) => true
    case StealReadTail(head) => head <= s.head
    case StealReadItem(head, tail) => head <= s.head && (head == s.head && head < tail ==> head < Back(s))
    case StealCas(head, x) => head <= s.head && (head == s.head ==> head < Back(s) && x == Slot(s, head))
  }

  predicate Inv(s: State) {
    && |s.slots| > 0
    && 0 <= s.head <= Back(s) <= s.head + |s.slots| - 1
    && OwnerInv(s)
    && (forall i :: 0 <= i < |s.thieves| ==> ThiefInv(s, i))
  }

  /** What one step does to the abstract deque. */
  predicate Refines(s: State, a: Action, s': State)
    requires Inv(s) && |s'.slots| > 0 && s'.head <= Back(s')
  {
    var (c, c') := (Contents(s), Contents(s'));
    match a
    case CallPut(_) => c' == c && s'.puts == s.puts && s'.gets == s.gets
    case CallTake => c' == c && s'.puts == s.puts && s'.gets == s.gets
    case CallSteal(_) => c' == c && s'.puts == s.puts && s'.gets == s.gets
    case OwnerStep =>
      (match s.owner
       case PutBump(x) => c' == c + [x] && s'.puts == s.puts + [x] && s'.gets == s.gets
       case TakeReadHead(t) =>
         // decided here unless a single item is left
         && s'.puts == s.puts && s'.gets == s.gets
         && (s'.owner.TakeResetRead? ==> c == c' == [] && InHand(s') == [])
         && (s'.owner.TakeReadItem? && s'.owner.head < t
             ==> |c| >= 2 && c' == c[..|c| - 1] && InHand(s') == [c[|c| - 1]])
         && (s'.owner.TakeReadItem? && s'.owner.head == t ==> |c| == 1 && c' == c)
       case TakeCas(_, _, _) =>
         && s'.puts == s.puts && s'.gets == s.gets
         && c' == [] && InHand(s') == c && |c| <= 1
       case _ =>
         && c' == c && s'.puts == s.puts
         && s'.gets + InHand(s') == s.gets + InHand(s)
         && (s'.owner.Idle? ==> s'.gets == s.gets + InHand(s)))
    case ThiefStep(i) =>
      && s'.puts == s.puts && InHand(s') == InHand(s)
      && ((c' == c && s'.gets == s.gets) || (c != [] && c' == c[1..] && s'.gets == s.gets + [c[0]]))
  }

  // ---------- proofs ----------

  lemma InitInv(s: State)
    requires Init(s)
    ensures Inv(s)
  {
  }

  /** Overwriting the slot after the last item leaves every live slot alone. */
  lemma StoreKeepsLive(s: State, x: Item, k: int)
    requires |s.slots| > 0
    requires s.head <= k < s.tail < s.head + |s.slots|
    ensures Slot(s.(slots := s.slots[s.tail % |s.slots| := x]), k) == Slot(s, k)
  {
    ModDistinct(k, s.tail, |s.slots|);
  }

  lemma OwnerKeepsInv(s: State)
    requires Inv(s)
    ensures Inv(OwnerNext(s))
  {
    var s' := OwnerNext(s);
    forall i | 0 <= i < |s'.thieves| ensures ThiefInv(s', i) {
      OwnerKeepsThief(s, i);
    }
  }

  lemma OwnerKeepsThief(s: State, i: nat)
    requires Inv(s) && i < |s.thieves|
    ensures |OwnerNext(s).slots| == |s.slots| && OwnerNext(s).thieves == s.thieves && ThiefInv(OwnerNext(s), i)
  {
    assert ThiefInv(s, i);
    if s.owner.PutStore? && s.head < s.tail {
      StoreKeepsLive(s, s.owner.x, s.head);
    }
  }

  lemma PutRefines(s: State)
    requires Inv(s) && Inv(OwnerNext(s)) && (s.owner.PutStore? || s.owner.PutBump?)
    ensures Refines(s, OwnerStep, OwnerNext(s))
  {
    var s' := OwnerNext(s);
    if s.owner.PutStore? {
      forall k | s.head <= k < s.tail ensures Slot(s', k) == Slot(s, k) {
        StoreKeepsLive(s, s.owner.x, k);
      }
      assert Contents(s') == Contents(s);
    } else {
      assert Contents(s') == Contents(s) + [s.owner.x];
    }
  }

  /** The two places where a take is decided. */
  lemma TakeRefines(s: State)
    requires Inv(s) && Inv(OwnerNext(s)) && (s.owner.TakeReadHead? || s.owner.TakeCas?)
    ensures Refines(s, OwnerStep, OwnerNext(s))
  {
    var s', c := OwnerNext(s), Contents(s);
    if s.owner.TakeCas? {
      assert c == if s.head == s.owner.head then [s.owner.x] else [];
    } else if s'.owner.TakeReadItem? && s'.owner.head < s.owner.t {
      assert Contents(s') == c[..|c| - 1];
    } else {
      assert Contents(s') == c;
    }
  }

  lemma OwnerRefines(s: State)
    requires Inv(s) && Inv(OwnerNext(s))
    ensures Refines(s, OwnerStep, OwnerNext(s))
  {
    match s.owner {
      case PutStore(_) => PutRefines(s);
      case PutBump(_) => PutRefines(s);
      case TakeReadHead(_) => TakeRefines(s);
      case TakeCas(_, _, _) => TakeRefines(s);
      case _ => assert Contents(OwnerNext(s)) == Contents(s);
    }
  }

  lemma ThiefKeepsInv(s: State, i: nat)
    requires Inv(s) && i < |s.thieves|
    ensures Inv(ThiefNext(s, i))
  {
    var s' := ThiefNext(s, i);
    assert ThiefInv(s, i);
    forall j | 0 <= j < |s'.thieves| ensures ThiefInv(s', j) {
      ThiefKeepsThief(s, i, j);
    }
  }

  lemma ThiefKeepsThief(s: State, i: nat, j: nat)
    requires Inv(s) && i < |s.thieves| && j < |s.thieves|
    ensures |ThiefNext(s, i).thieves| == |s.thieves| && ThiefInv(ThiefNext(s, i), j)
  {
    assert ThiefInv(s, i) && ThiefInv(s, j);
  }

  lemma ThiefRefines(s: State, i: nat)
    requires Inv(s) && i < |s.thieves| && Inv(ThiefNext(s, i))
    ensures Refines(s, ThiefStep(i), ThiefNext(s, i))
  {
    var s' := ThiefNext(s, i);
    assert ThiefInv(s, i);
    if s.thieves[i].StealCas? && s.head == s.thieves[i].head {
      assert Contents(s') == Contents(s)[1..];
    } else {
      assert Contents(s') == Contents(s);
    }
  }

  lemma NextCorrect(s: State, a: Action)
    requires Inv(s)
    ensures Inv(Next(s, a)) && Refines(s, a, Next(s, a))
  {
    var s' := Next(s, a);
    if a.OwnerStep? {
      OwnerKeepsInv(s);
      OwnerRefines(s);
    } else if a.ThiefStep? && a.thief < |s.thieves| {
      ThiefKeepsInv(s, a.thief);
      ThiefRefines(s, a.thief);
    } else {
      forall j | 0 <= j < |s'.thieves| ensures ThiefInv(s', j) {
        assert ThiefInv(s, j);
      }
      assert Contents(s') == Contents(s);
    }
  }

  // ---------- the run is a run of a sequential double-ended queue ----------

  /** The operation, if any, that takes effect in this step, with the answer the program computed. */
  function OpOf(s: State, a: Action): Op
    requires |s.slots| > 0
  {
    match a
    case OwnerStep =>
      (match s.owner
       case PutBump(x) => PutTail(x, true)
       case TakeReadHead(t) =>
         if t < s.head then GetTail(None) else if t == s.head then Silent else GetTail(Some(Slot(s, t)))
       case TakeCas(_, head, x) => GetTail(if s.head == head then Some(x) else None)
       case _ => Silent)
    case ThiefStep(i) =>
      if i < |s.thieves| && s.thieves[i].StealCas? && s.thieves[i].head == s.head then GetHead(Some(s.thieves[i].x))
      else Silent
    case _ => Silent
  }

  function Trace(s: State, schedule: seq<Action>): seq<Op>
    requires |s.slots| > 0
    decreases |schedule|
  {
    if schedule == [] then [] else [OpOf(s, schedule[0])] + Trace(Next(s, schedule[0]), schedule[1..])
  }

  /** How often v has left the deque: handed to a caller, or held by the owner about to hand it over. */
  function Out(s: State, v: Item): nat
    requires |s.slots| > 0
  {
    Count(s.gets, v) + Count(InHand(s), v)
  }

  lemma OpMatchesContents(s: State, a: Action)
    requires Inv(s)
    ensures Inv(Next(s, a))
    ensures Apply(None, Contents(s), OpOf(s, a)) == Legal(Contents(Next(s, a)))
  {
    NextCorrect(s, a);
    if a.ThiefStep? && a.thief < |s.thieves| {
      assert ThiefInv(s, a.thief);
    }
  }

  lemma OpMatchesHistory(s: State, a: Action)
    requires Inv(s)
    ensures Next(s, a).puts == s.puts + PutBy(OpOf(s, a))
    ensures if a.OwnerStep?
            then Next(s, a).gets + InHand(Next(s, a)) == s.gets + InHand(s) + TakenBy(OpOf(s, a))
            else Next(s, a).gets == s.gets + TakenBy(OpOf(s, a)) && InHand(Next(s, a)) == InHand(s)
  {
    NextCorrect(s, a);
    if a.OwnerStep? {
      OwnerHistory(s);
    } else if a.ThiefStep? && a.thief < |s.thieves| {
      assert ThiefInv(s, a.thief);
    }
  }

  lemma OwnerHistory(s: State)
    requires Inv(s) && Inv(OwnerNext(s)) && Refines(s, OwnerStep, OwnerNext(s))
    ensures OwnerNext(s).puts == s.puts + PutBy(OpOf(s, OwnerStep))
    ensures OwnerNext(s).gets + InHand(OwnerNext(s)) == s.gets + InHand(s) + TakenBy(OpOf(s, OwnerStep))
  {
    match s.owner {
      case TakeReadHead(_) =>
      case TakeCas(_, _, _) =>
      case _ =>
    }
  }

  lemma OutGrows(s: State, a: Action, v: Item)
    requires Inv(s)
    ensures Out(Next(s, a), v) == Out(s, v) + Count(TakenBy(OpOf(s, a)), v)
  {
    OpMatchesHistory(s, a);
    var s', taken := Next(s, a), TakenBy(OpOf(s, a));
    if a.OwnerStep? {
      CountConcat(s'.gets, InHand(s'), v);
      CountThree(s.gets, InHand(s), taken, v);
    } else {
      CountConcat(s.gets, taken, v);
    }
  }

  /**
  Linearizability: from any reachable state, under every schedule, the operations in the order
  in which they take effect are a legal run of the sequential deque ending in the present contents.
  */
  lemma {:induction false} Linearizable(s: State, schedule: seq<Action>)
    requires Inv(s)
    ensures Inv(Exec(s, schedule))
    ensures Replay(None, Contents(s), Trace(s, schedule)) == Legal(Contents(Exec(s, schedule)))
    decreases |schedule|
  {
    if schedule == [] {
    } else {
      OpMatchesContents(s, schedule[0]);
      Linearizable(Next(s, schedule[0]), schedule[1..]);
    }
  }

  lemma PutFirst(op: Op, ops: seq<Op>)
    ensures Put([op] + ops) == PutBy(op) + Put(ops)
  {
    assert ([op] + ops)[1..] == ops;
  }

  /** Those operations push exactly the items whose put returned success, in order ... */
  lemma {:induction false} PutsAreTrace(s: State, schedule: seq<Action>)
    requires Inv(s)
    ensures Exec(s, schedule).puts == s.puts + Put(Trace(s, schedule))
    decreases |schedule|
  {
    if schedule == [] {
    } else {
      var s1 := Next(s, schedule[0]);
      PutStep(s, schedule[0]);
      PutsAreTrace(s1, schedule[1..]);
      PutFirst(OpOf(s, schedule[0]), Trace(s1, schedule[1..]));
    }
  }

  lemma PutStep(s: State, a: Action)
    requires Inv(s)
    ensures Inv(Next(s, a)) && Next(s, a).puts == s.puts + PutBy(OpOf(s, a))
  {
    NextCorrect(s, a);
    OpMatchesHistory(s, a);
  }

  /** ... and their answers are exactly the items handed to callers or about to be. */
  lemma {:induction false} GetsAreTrace(s: State, schedule: seq<Action>, v: Item)
    requires Inv(s)
    ensures Out(Exec(s, schedule), v) == Out(s, v) + Count(Taken(Trace(s, schedule)), v)
    decreases |schedule|
  {
    if schedule == [] {
    } else {
      var s1 := Next(s, schedule[0]);
      assert Inv(s1) && Out(s1, v) == Out(s, v) + Count(TakenBy(OpOf(s, schedule[0])), v) by {
        NextCorrect(s, schedule[0]);
        OutGrows(s, schedule[0], v);
      }
      GetsAreTrace(s1, schedule[1..], v);
      TakenFirst(OpOf(s, schedule[0]), Trace(s1, schedule[1..]), v);
    }
  }

  /** Conservation: nothing put is lost, returned twice or overwritten while it is live. */
  lemma Conservation(s: State, schedule: seq<Action>)
    requires Init(s)
    ensures var s' := Exec(s, schedule);
      && Inv(s')
      && multiset(s'.puts) == multiset(s'.gets) + multiset(InHand(s')) + multiset(Contents(s'))
      && (s'.owner.Idle? ==> multiset(s'.puts) == multiset(s'.gets) + multiset(Between(s', s'.head, s'.tail)))
  {
    InitInv(s);
    Linearizable(s, schedule);
    var s' := Exec(s, schedule);
    forall v
      ensures multiset(s'.puts)[v] == multiset(s'.gets)[v] + multiset(InHand(s'))[v] + multiset(Contents(s'))[v]
    {
      CountsAddUp(s, schedule, v);
      CountIsMultiplicity(s'.puts, v);
      CountIsMultiplicity(s'.gets, v);
      CountIsMultiplicity(InHand(s'), v);
      CountIsMultiplicity(Contents(s'), v);
    }
    if s'.owner.Idle? {
      assert Contents(s') == Between(s', s'.head, s'.tail);
    }
  }

  lemma CountsAddUp(s: State, schedule: seq<Action>, v: Item)
    requires Init(s)
    ensures Count(Exec(s, schedule).puts, v) == Out(Exec(s, schedule), v) + Count(Contents(Exec(s, schedule)), v)
  {
    InitInv(s);
    var s', ops := Exec(s, schedule), Trace(s, schedule);
    assert Replay(None, [], ops) == Legal(Contents(s')) by {
      assert Contents(s) == [];
      Linearizable(s, schedule);
    }
    assert s'.puts == Put(ops) && Out(s', v) == Count(Taken(ops), v) by {
      PutsAreTrace(s, schedule);
      GetsAreTrace(s, schedule, v);
    }
    assert Count(Put(ops), v) == Count(Taken(ops), v) + Count(Contents(s'), v) by {
      ReplayConserves(None, [], ops, v);
    }
  }

  /** While the owner stands still, only the head moves, and only forward. */
  lemma {:induction false} ThievesOnlyTake(s: State, schedule: seq<Action>)
    requires |s.slots| > 0
    requires forall a :: a in schedule ==> a.CallSteal? || a.ThiefStep?
    ensures var s' := Exec(s, schedule);
      s'.owner == s.owner && s'.tail == s.tail && s'.puts == s.puts && s'.head >= s.head
    decreases |schedule|
  {
    if schedule == [] {
    } else {
      assert schedule[0] in schedule;
      ThievesOnlyTake(Next(s, schedule[0]), schedule[1..]);
    }
  }

  /**
  A put is refused exactly when the deque held num_slots - 1 items at the call, whatever the thieves do
  meanwhile.
  */
  lemma PutRefusedIffFull(s: State, x: Item, thieves: seq<Action>)
    requires Inv(s) && s.owner.Idle?
    requires forall a :: a in thieves ==> a.CallSteal? || a.ThiefStep?
    ensures OwnerNext(Exec(Next(s, CallPut(x)), thieves)).owner.Idle? <==> |Contents(s)| == |s.slots| - 1
    ensures OwnerNext(Exec(Next(s, CallPut(x)), thieves)).owner == PutStore(x) <==> |Contents(s)| < |s.slots| - 1
  {
    ThievesOnlyTake(Next(s, CallPut(x)), thieves);
  }

  // ---------- when a thief comes back with nothing ----------

  /** The owner has lowered the tail for the last item and has not yet won or lost it. */
  predicate DecidingLast(s: State)
    requires |s.slots| > 0
  {
    && |Contents(s)| <= 1
    && (s.owner.TakeReadHead? || (s.owner.TakeReadItem? && s.owner.head == s.owner.t) || s.owner.TakeCas?)
  }

  /** What excuses a thief that has read `head`. */
  predicate Excused(s: State, head: int)
    requires |s.slots| > 0
  {
    Contents(s) == [] || DecidingLast(s) || s.head != head
  }

  predicate HasRead(pc: ThiefPc, head: int) {
    pc == StealReadTail(head) || (pc.StealReadItem? && pc.head == head) || (pc.StealCas? && pc.head == head)
  }

  /** A thief that saw the tail at or before the head saw an empty deque, or the owner deciding the last item. */
  lemma ShortTailExcuses(s: State, head: int)
    requires Inv(s) && s.tail <= head
    ensures Excused(s, head)
  {
  }

  /** Between calls a thief's own steps are its only ones. */
  lemma ThiefOf(s: State, a: Action, i: nat)
    requires Inv(s) && i < |s.thieves| && a != CallSteal(i)
    ensures Inv(Next(s, a)) && |Next(s, a).thieves| == |s.thieves|
    ensures Next(s, a).thieves[i] == if a == ThiefStep(i) then ThiefNext(s, i).thieves[i] else s.thieves[i]
  {
    NextCorrect(s, a);
  }

  /** The operations of thief i in a run. */
  function ThiefOps(s: State, schedule: seq<Action>, i: nat): seq<Op>
    requires |s.slots| > 0
    decreases |schedule|
  {
    if schedule == [] then []
    else
      var rest := ThiefOps(Next(s, schedule[0]), schedule[1..], i);
      if schedule[0] == ThiefStep(i) && OpOf(s, schedule[0]) != Silent then [OpOf(s, schedule[0])] + rest else rest
  }

  lemma {:induction false} StaysAway(s: State, i: nat, schedule: seq<Action>)
    requires Inv(s) && i < |s.thieves| && s.thieves[i].Away? && CallSteal(i) !in schedule
    ensures |Exec(s, schedule).thieves| == |s.thieves| && Exec(s, schedule).thieves[i] == s.thieves[i]
    ensures ThiefOps(s, schedule, i) == []
    decreases |schedule|
  {
    if schedule == [] {
    } else {
      ThiefOf(s, schedule[0], i);
      StaysAway(Next(s, schedule[0]), i, schedule[1..]);
    }
  }

  /** What a steal that is over has done, by the answer it gave. */
  predicate StealIs(result: Option<Item>, ops: seq<Op>) {
    ops == if result == None then [] else [GetHead(result)]
  }

  /**
  From within a steal until it is over: it has taken an item, or a moment excuses it, or the tail it read was too
  small.
  */
  lemma {:induction false} StealFrom(s: State, i: nat, head: int, schedule: seq<Action>) returns (k: nat)
    requires Inv(s) && i < |s.thieves| && HasRead(s.thieves[i], head) && CallSteal(i) !in schedule
    requires i < |Exec(s, schedule).thieves| && Exec(s, schedule).thieves[i].Away?
    ensures var result := Exec(s, schedule).thieves[i].result;
      && StealIs(result, ThiefOps(s, schedule, i)) && k <= |schedule|
      && (result == None ==> Excused(Exec(s, schedule[..k]), head)
                             || (s.thieves[i].StealReadItem? && s.thieves[i].tail <= head))
    decreases |schedule|
  {
    var a, s' := schedule[0], Next(s, schedule[0]);
    ThiefOf(s, a, i);
    if s'.thieves[i].Away? {
      StaysAway(s', i, schedule[1..]);
      k := 0;
    } else {
      k := StealFrom(s', i, head, schedule[1..]);
      if a == ThiefStep(i) && s.thieves[i].StealReadTail? && s.tail <= head {
        ShortTailExcuses(s, head);
        k := 0;
      } else {
        k := k + 1;
        assert schedule[..k][0] == a && schedule[..k][1..] == schedule[1..][..k - 1];
      }
    }
  }

  /**
  A steal that is over has taken the head item it returns, or else returns NULL without an effect; and NULL only if at
  some moment between its call and its return the deque was empty, or the owner was deciding about the last item, or
  the head had been moved by another.
  */
  lemma StealReturns(s: State, i: nat, schedule: seq<Action>) returns (k: nat)
    requires Inv(s) && i < |s.thieves| && s.thieves[i].Away? && CallSteal(i) !in schedule
    requires var r := Exec(Next(s, CallSteal(i)), schedule); i < |r.thieves| && r.thieves[i].Away?
    ensures var s1 := Next(s, CallSteal(i));
      var result := Exec(s1, schedule).thieves[i].result;
      && StealIs(result, ThiefOps(s1, schedule, i)) && k <= |schedule|
      && (result == None ==> Excused(Exec(s1, schedule[..k]), s.head))
  {
    NextCorrect(s, CallSteal(i));
    k := StealFrom(Next(s, CallSteal(i)), i, s.head, schedule);
  }

  function ThiefStepsLeft(pc: ThiefPc): nat {
    match pc
    case Away(_) => 0
    case StealReadTail(_) => 3
    case StealReadItem(_, _) => 2
    case StealCas(_, _) => 1
  }

  function ThiefSteps(schedule: seq<Action>, i: nat): nat {
    if schedule == [] then 0 else One(schedule[0] == ThiefStep(i)) + ThiefSteps(schedule[1..], i)
  }

  /** A steal is wait-free, too: three steps of the thief finish it, whatever the others do. */
  lemma {:induction false} ThiefFinishes(s: State, i: nat, schedule: seq<Action>)
    requires |s.slots| > 0 && i < |s.thieves| && CallSteal(i) !in schedule
    ensures var r := Exec(s, schedule);
      i < |r.thieves| && (ThiefSteps(schedule, i) >= ThiefStepsLeft(s.thieves[i]) ==> r.thieves[i].Away?)
    ensures ThiefStepsLeft(s.thieves[i]) <= 3
    decreases |schedule|
  {
    if schedule == [] {
    } else {
      ThiefFinishes(Next(s, schedule[0]), i, schedule[1..]);
    }
  }

  // ---------- what a call of the owner does ----------

  predicate ByOwner(op: Op) {
    op.PutTail? || op.GetTail?
  }

  function OwnerOps(ops: seq<Op>): seq<Op> {
    if ops == [] then [] else (if ByOwner(ops[0]) then [ops[0]] else []) + OwnerOps(ops[1..])
  }

  predicate NoOwnerCall(schedule: seq<Action>) {
    forall a :: a in schedule ==> !a.CallPut? && !a.CallTake?
  }

  /** What is still to come of the operation in progress, until its answer is `took` or `accepted`. */
  predicate Ends(s: State, ops: seq<Op>, took: Option<Item>, accepted: bool)
    requires |s.slots| > 0
  {
    match s.owner
    case Idle => ops == [] && took == s.took && accepted == s.accepted
    case PutReadTail(x, head) =>
      accepted == (s.tail - head != |s.slots| - 1) && ops == if accepted then [PutTail(x, true)] else []
    case PutStore(x) => ops == [PutTail(x, true)] && accepted
    case PutBump(x) => ops == [PutTail(x, true)] && accepted
    case TakeStoreTail(_) => ops == [GetTail(took)]
    case TakeReadHead(_) => ops == [GetTail(took)]
    case TakeReadItem(t, head) => if head < t then ops == [] && took == Some(Slot(s, t)) else ops == [GetTail(took)]
    case TakeCas(_, _, _) => ops == [GetTail(took)]
    case TakeResetRead(_, r) => ops == [] && took == r
    case TakeResetStore(_, _, r) => ops == [] && took == r
  }

  lemma {:induction false} CallFrom(s: State, schedule: seq<Action>)
    requires Inv(s) && NoOwnerCall(schedule) && Exec(s, schedule).owner.Idle?
    ensures Ends(s, OwnerOps(Trace(s, schedule)), Exec(s, schedule).took, Exec(s, schedule).accepted)
    decreases |schedule|
  {
    if schedule == [] {
    } else {
      var a, s1 := schedule[0], Next(s, schedule[0]);
      assert a in schedule;
      NextCorrect(s, a);
      CallFrom(s1, schedule[1..]);
      EndsStep(s, a, OwnerOps(Trace(s1, schedule[1..])), Exec(s, schedule).took, Exec(s, schedule).accepted);
      assert ([OpOf(s, a)] + Trace(s1, schedule[1..]))[1..] == Trace(s1, schedule[1..]);
    }
  }

  lemma EndsStep(s: State, a: Action, ops: seq<Op>, took: Option<Item>, accepted: bool)
    requires Inv(s) && Inv(Next(s, a)) && !a.CallPut? && !a.CallTake? && Ends(Next(s, a), ops, took, accepted)
    ensures Ends(s, (if ByOwner(OpOf(s, a)) then [OpOf(s, a)] else []) + ops, took, accepted)
  {
    if a.OwnerStep? {
      OwnerEnds(s, ops, took, accepted);
    }
  }

  lemma OwnerEnds(s: State, ops: seq<Op>, took: Option<Item>, accepted: bool)
    requires |s.slots| > 0 && OwnerInv(s) && |OwnerNext(s).slots| == |s.slots|
    requires Ends(OwnerNext(s), ops, took, accepted)
    ensures Ends(s, (if ByOwner(OpOf(s, OwnerStep)) then [OpOf(s, OwnerStep)] else []) + ops, took, accepted)
  {
  }

  /**
  A take that is over has taken effect exactly once, with the answer it gave; and by Linearizable that answer is the
  item at the tail, or NULL with the deque empty, at the moment it took effect.
  */
  lemma TakeReturns(s: State, schedule: seq<Action>)
    requires Inv(s) && s.owner.Idle? && NoOwnerCall(schedule)
    requires Exec(Next(s, CallTake), schedule).owner.Idle?
    ensures var s1 := Next(s, CallTake); OwnerOps(Trace(s1, schedule)) == [GetTail(Exec(s1, schedule).took)]
  {
    NextCorrect(s, CallTake);
    CallFrom(Next(s, CallTake), schedule);
  }

  /** A put that is over has taken effect exactly once and says so, or not at all if the deque was full at the call. */
  lemma PutReturns(s: State, x: Item, schedule: seq<Action>)
    requires Inv(s) && s.owner.Idle? && NoOwnerCall(schedule)
    requires Exec(Next(s, CallPut(x)), schedule).owner.Idle?
    ensures var s1 := Next(s, CallPut(x));
      && Exec(s1, schedule).accepted == (|Contents(s)| < |s.slots| - 1)
      && OwnerOps(Trace(s1, schedule)) == if Exec(s1, schedule).accepted then [PutTail(x, true)] else []
  {
    NextCorrect(s, CallPut(x));
    CallFrom(Next(s, CallPut(x)), schedule);
  }

  function StepsLeft(pc: OwnerPc): nat {
    match pc
    case Idle => 0
    case PutReadTail(_, _) => 3
    case PutStore(_) => 2
    case PutBump(_) => 1
    case TakeStoreTail(_) => 6
    case TakeReadHead(_) => 5
    case TakeReadItem(_, _) => 4
    case TakeCas(_, _, _) => 3
    case TakeResetRead(_, _) => 2
    case TakeResetStore(_, _, _) => 1
  }

  function OwnerSteps(schedule: seq<Action>): nat {
    if schedule == [] then 0 else (if schedule[0].OwnerStep? then 1 else 0) + OwnerSteps(schedule[1..])
  }

  /** The owner's operations are wait-free: six of its own steps finish any of them, whatever the thieves do. */
  lemma {:induction false} OwnerFinishes(s: State, schedule: seq<Action>)
    requires |s.slots| > 0
    requires forall a :: a in schedule ==> !a.CallPut? && !a.CallTake?
    ensures OwnerSteps(schedule) >= StepsLeft(s.owner) ==> Exec(s, schedule).owner.Idle?
    ensures StepsLeft(s.owner) <= 6
    decreases |schedule|
  {
    if schedule == [] {
    } else {
      assert schedule[0] in schedule;
      OwnerFinishes(Next(s, schedule[0]), schedule[1..]);
    }
  }
}
