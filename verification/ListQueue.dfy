/**
The list deque: slots in a ring of segments.  Inside a segment a slot's neighbours are the adjacent ones in
memory, and only where segments meet are there pointers.  A full queue grows by splicing in a new segment.
Each operation runs under the queue's lock, so it is one method here.
*/
module ListQueue {
  import opened Deque

  /** A pointer is a memory address, or None for NULL. */
  datatype Slot = Slot(item: Item, next: Option<int>, prev: Option<int>)

  type Memory = map<int, Slot>

  /** The slot after a: where it points, or else the next one in memory. */
  function Succ(m: Memory, a: int): int
    requires a in m
  {
    if m[a].next.Some? then m[a].next.value else a + 1
  }

  function Pred(m: Memory, a: int): int
    requires a in m
  {
    if m[a].prev.Some? then m[a].prev.value else a - 1
  }

  /** b comes right after a: linked both ways, or adjacent with neither pointer set. */
  predicate Linked(m: Memory, a: int, b: int) {
    && a in m && b in m
    && ((m[a].next == Some(b) && m[b].prev == Some(a)) || (m[a].next == None && m[b].prev == None && b == a + 1))
  }

  predicate Distinct(ring: seq<int>) {
    forall i, j :: 0 <= i < j < |ring| ==> ring[i] != ring[j]
  }

  /** The i-th slot of the ring is linked to the next one, the last to the first. */
  predicate LinkAt(m: Memory, ring: seq<int>, i: nat)
    requires i < |ring|
  {
    Linked(m, ring[i], if i + 1 < |ring| then ring[i + 1] else ring[0])
  }

  /** The slots of the memory, each once, in the order of the links. */
  predicate IsRing(m: Memory, ring: seq<int>) {
    && ring != [] && Distinct(ring)
    && (forall a :: a in m ==> a in ring) && (forall i :: 0 <= i < |ring| ==> ring[i] in m)
    && (forall i :: 0 <= i < |ring| ==> LinkAt(m, ring, i))
  }

  /** The items of the `used` slots after the first. */
  function Items(m: Memory, ring: seq<int>, used: nat): (q: seq<Item>)
    requires used < |ring| && forall i :: 0 <= i < |ring| ==> ring[i] in m
    ensures |q| == used && forall i :: 0 <= i < used ==> q[i] == m[ring[1 + i]].item
  {
    seq(used, i requires 0 <= i < used => m[ring[1 + i]].item)
  }

  // ---------- what a ring is ----------

  lemma LinkedInverse(m: Memory, a: int, b: int)
    requires Linked(m, a, b)
    ensures Succ(m, a) == b && Pred(m, b) == a
  {
  }

  /** prev is the inverse of next, and neither leads out of the ring. */
  lemma RingInverse(m: Memory, ring: seq<int>, a: int)
    requires IsRing(m, ring) && a in m
    ensures Succ(m, a) in m && Pred(m, Succ(m, a)) == a
    ensures Pred(m, a) in m && Succ(m, Pred(m, a)) == a
  {
    var i :| 0 <= i < |ring| && ring[i] == a;
    assert LinkAt(m, ring, i) && LinkAt(m, ring, if i > 0 then i - 1 else |ring| - 1);
    LinkedInverse(m, a, if i + 1 < |ring| then ring[i + 1] else ring[0]);
    LinkedInverse(m, if i > 0 then ring[i - 1] else ring[|ring| - 1], a);
  }

  /** Where following the links k times leads. */
  function Follow(m: Memory, ring: seq<int>, a: int, k: nat): int
    requires IsRing(m, ring) && a in m
    decreases k
  {
    if k == 0 then a
    else
      RingInverse(m, ring, a);
      Follow(m, ring, Succ(m, a), k - 1)
  }

  lemma {:induction false} FollowAlong(m: Memory, ring: seq<int>, i: nat, k: nat)
    requires IsRing(m, ring) && i + k < |ring|
    ensures Follow(m, ring, ring[i], k) == ring[i + k]
    decreases k
  {
    if k == 0 {
    } else {
      assert LinkAt(m, ring, i);
      LinkedInverse(m, ring[i], ring[i + 1]);
      FollowAlong(m, ring, i + 1, k - 1);
    }
  }

  lemma {:induction false} FollowOnce(m: Memory, ring: seq<int>, a: int, k: nat)
    requires IsRing(m, ring) && a in m
    ensures Follow(m, ring, a, k) in m && Follow(m, ring, a, k + 1) == Succ(m, Follow(m, ring, a, k))
    decreases k
  {
    RingInverse(m, ring, a);
    if k == 0 {
    } else {
      FollowOnce(m, ring, Succ(m, a), k - 1);
    }
  }

  /**
  The links form one cycle over all slots: from the head every slot is reached, and after all of them the head
  again.
  */
  lemma RingIsOneCycle(m: Memory, ring: seq<int>, a: int) returns (k: nat)
    requires IsRing(m, ring) && a in m
    ensures k < |ring| && Follow(m, ring, ring[0], k) == a
    ensures Follow(m, ring, ring[0], |ring|) == ring[0]
  {
    k :| 0 <= k < |ring| && ring[k] == a;
    FollowAlong(m, ring, 0, k);
    FollowAlong(m, ring, 0, |ring| - 1);
    FollowOnce(m, ring, ring[0], |ring| - 1);
    assert LinkAt(m, ring, |ring| - 1);
    LinkedInverse(m, ring[|ring| - 1], ring[0]);
  }

  /** The ring read from the second slot on. */
  function Left(ring: seq<int>): (r: seq<int>)
    requires ring != []
    ensures |r| == |ring| && r[|r| - 1] == ring[0] && forall i :: 0 <= i < |r| - 1 ==> r[i] == ring[i + 1]
  {
    ring[1..] + [ring[0]]
  }

  /** The ring read from the last slot on. */
  function Right(ring: seq<int>): (r: seq<int>)
    requires ring != []
    ensures |r| == |ring| && r[0] == ring[|ring| - 1] && forall i :: 0 < i < |r| ==> r[i] == ring[i - 1]
  {
    [ring[|ring| - 1]] + ring[..|ring| - 1]
  }

  lemma LeftHolds(ring: seq<int>, a: int)
    requires ring != [] && a in ring
    ensures a in Left(ring)
  {
    var i :| 0 <= i < |ring| && ring[i] == a;
    assert Left(ring)[if i == 0 then |ring| - 1 else i - 1] == a;
  }

  lemma RightHolds(ring: seq<int>, a: int)
    requires ring != [] && a in ring
    ensures a in Right(ring)
  {
    var i :| 0 <= i < |ring| && ring[i] == a;
    assert Right(ring)[if i == |ring| - 1 then 0 else i + 1] == a;
  }

  /** Wherever it is read from, it is the same ring. */
  lemma RotateLeft(m: Memory, ring: seq<int>)
    requires IsRing(m, ring)
    ensures IsRing(m, Left(ring))
  {
    var r := Left(ring);
    forall a | a in m ensures a in r {
      LeftHolds(ring, a);
    }
    forall i, j | 0 <= i < j < |r| ensures r[i] != r[j] {
      assert r[i] == ring[i + 1];
    }
    forall i | 0 <= i < |r| ensures LinkAt(m, r, i) {
      assert LinkAt(m, ring, if i + 1 < |r| then i + 1 else 0);
    }
  }

  lemma RotateRight(m: Memory, ring: seq<int>)
    requires IsRing(m, ring)
    ensures IsRing(m, Right(ring))
  {
    var r := Right(ring);
    forall a | a in m ensures a in r {
      RightHolds(ring, a);
    }
    forall i, j | 0 <= i < j < |r| ensures r[i] != r[j] {
      assert r[j] == ring[j - 1];
    }
    forall i | 0 <= i < |r| ensures LinkAt(m, r, i) {
      assert LinkAt(m, ring, if i > 0 then i - 1 else |ring| - 1);
    }
  }

  lemma ItemsLeft(m: Memory, ring: seq<int>, used: nat)
    requires IsRing(m, ring) && IsRing(m, Left(ring)) && 0 < used < |ring|
    ensures Items(m, ring, used) == [m[ring[1]].item] + Items(m, Left(ring), used - 1)
  {
  }

  function Addresses(base: int, k: nat): (r: seq<int>)
    ensures |r| == k && forall i :: 0 <= i < k ==> r[i] == base + i
  {
    seq(k, i => base + i)
  }

  lemma AddressesAre(base: int, k: nat)
    ensures forall a :: a in Addresses(base, k) <==> base <= a < base + k
  {
    forall a | base <= a < base + k ensures a in Addresses(base, k) {
      assert Addresses(base, k)[a - base] == a;
    }
  }

  /** A segment as malloc and memset leave it. */
  function Segment(base: int, k: nat): (m: Memory)
    ensures forall a :: a in m <==> base <= a < base + k
    ensures forall a :: a in m ==> m[a] == Slot(0, None, None)
  {
    AddressesAre(base, k);
    map a | a in Addresses(base, k) :: Slot(0, None, None)
  }

  /** The initial ring: one segment whose ends point at each other. */
  function FirstSegment(base: int, n: nat): Memory
    requires n >= 1
  {
    var m := Segment(base, n);
    var m1 := m[base := m[base].(prev := Some(base + n - 1))];
    m1[base + n - 1 := m1[base + n - 1].(next := Some(base))]
  }

  lemma FirstSegmentIsRing(base: int, n: nat)
    requires n >= 1
    ensures IsRing(FirstSegment(base, n), Addresses(base, n))
  {
    var m, r := FirstSegment(base, n), Addresses(base, n);
    AddressesAre(base, n);
    forall i | 0 <= i < n ensures LinkAt(m, r, i) {
      assert r[i] == base + i;
    }
  }

  // ---------- writing and growing ----------

  function Write(m: Memory, a: int, x: Item): Memory
    requires a in m
  {
    m[a := m[a].(item := x)]
  }

  lemma WriteKeepsRing(m: Memory, ring: seq<int>, a: int, x: Item)
    requires IsRing(m, ring) && a in m
    ensures IsRing(Write(m, a, x), ring)
  {
    forall i | 0 <= i < |ring| ensures LinkAt(Write(m, a, x), ring, i) {
      assert LinkAt(m, ring, i);
    }
  }

  lemma ItemsPutTail(m: Memory, ring: seq<int>, used: nat, x: Item)
    requires IsRing(m, ring) && used + 1 < |ring| && IsRing(Write(m, ring[used + 1], x), ring)
    ensures Items(Write(m, ring[used + 1], x), ring, used + 1) == Items(m, ring, used) + [x]
  {
  }

  lemma ItemsPutHead(m: Memory, ring: seq<int>, used: nat, x: Item)
    requires IsRing(m, ring) && used + 1 < |ring| && IsRing(Write(m, ring[0], x), Right(ring))
    ensures Items(Write(m, ring[0], x), Right(ring), used + 1) == [x] + Items(m, ring, used)
  {
    var m', r := Write(m, ring[0], x), Right(ring);
    assert r[1] == ring[0];
    forall i | 1 <= i <= used ensures r[i + 1] == ring[i] && m'[ring[i]] == m[ring[i]] {
      assert ring[i] != ring[0];
    }
    ShiftedItems(m, m', ring, r, used);
  }

  lemma ShiftedItems(m: Memory, m': Memory, ring: seq<int>, r: seq<int>, used: nat)
    requires |r| == |ring| && used + 1 < |ring| && forall i :: 0 <= i < |ring| ==> ring[i] in m
    requires forall i :: 0 <= i < |r| ==> r[i] in m'
    requires forall i :: 1 <= i <= used ==> r[i + 1] == ring[i] && m'[ring[i]] == m[ring[i]]
    ensures Items(m', r, used + 1) == [m'[r[1]].item] + Items(m, ring, used)
  {
    forall i | 0 <= i < used ensures Items(m', r, used + 1)[1 + i] == Items(m, ring, used)[i] {
      assert r[(1 + i) + 1] == ring[1 + i];
    }
  }

  /** What malloc promises about the k slots at `base`. */
  predicate Unused(m: Memory, base: int, k: nat) {
    forall a :: a in m ==> !(base <= a < base + k)
  }

  function OldSlot(s: Slot, a: int, tail: int, head: int, base: int, k: nat): Slot {
    s.(next := if a == tail then Some(base) else s.next, prev := if a == head then Some(base + k - 1) else s.prev)
  }

  function NewSlot(a: int, tail: int, head: int, base: int, k: nat): Slot {
    Slot(0, if a == base + k - 1 then Some(head) else None, if a == base then Some(tail) else None)
  }

  /** What splicing a fresh segment between the tail and the head slot changes: four pointers and nothing else. */
  predicate Spliced(m: Memory, m': Memory, tail: int, head: int, base: int, k: nat)
    requires tail in m && head in m
  {
    && (forall a :: a in m' ==> a in m || base <= a < base + k)
    && (forall a :: a in m ==> a in m' && m'[a] == OldSlot(m[a], a, tail, head, base, k))
    && (forall a :: base <= a < base + k ==> a in m' && m'[a] == NewSlot(a, tail, head, base, k))
  }

  /** The first update of the splice. */
  function CutAfter(m: Memory, tail: int): Memory
    requires tail in m && (m[tail].next.Some? ==> m[tail].next.value in m)
  {
    if m[tail].next.Some? then
      var after := m[tail].next.value;
      m[after := m[after].(prev := None)]
    else m
  }

  /** The second test never finds a link to cut: between neighbours, the first update has already cut it. */
  lemma SecondTestNeverFires(m: Memory, tail: int, head: int, base: int, k: nat)
    requires tail in m && head in m && Unused(m, base, k) && Linked(m, tail, head)
    ensures CutAfter(m + Segment(base, k), tail)[head].prev == None
  {
  }

  /** Links in k slots that malloc has placed at `base`, after `tail` and before `head`. */
  method Splice(m: Memory, tail: int, head: int, base: int, k: nat) returns (m': Memory)
    requires tail in m && head in m && k >= 1 && Unused(m, base, k)
    requires (m[tail].next.Some? ==> m[tail].next.value in m) && (m[head].prev.Some? ==> m[head].prev.value in m)
    ensures Linked(m, tail, head) ==> Spliced(m, m', tail, head, base, k)
  {
    m' := CutAfter(m + Segment(base, k), tail);
    if m'[head].prev.Some? {
      m' := m'[m'[head].prev.value := m'[m'[head].prev.value].(next := None)];
    }
    m' := m'[tail := m'[tail].(next := Some(base))];
    m' := m'[base := m'[base].(prev := Some(tail))];
    m' := m'[head := m'[head].(prev := Some(base + k - 1))];
    m' := m'[base + k - 1 := m'[base + k - 1].(next := Some(head))];
  }

  lemma SplicedIsRing(m: Memory, m': Memory, ring: seq<int>, base: int, k: nat)
    requires IsRing(m, ring) && k >= 1 && Unused(m, base, k)
    requires Spliced(m, m', ring[|ring| - 1], ring[0], base, k)
    ensures IsRing(m', ring + Addresses(base, k))
    ensures forall a :: a in m ==> m'[a].item == m[a].item
  {
    var r := ring + Addresses(base, k);
    AddressesAre(base, k);
    forall i | 0 <= i < |r| ensures LinkAt(m', r, i) {
      if i < |ring| { OldLink(m, m', ring, base, k, i); } else { NewLink(m, m', ring, base, k, i); }
    }
  }

  lemma OldLink(m: Memory, m': Memory, ring: seq<int>, base: int, k: nat, i: nat)
    requires IsRing(m, ring) && k >= 1 && Unused(m, base, k) && i < |ring|
    requires Spliced(m, m', ring[|ring| - 1], ring[0], base, k)
    ensures LinkAt(m', ring + Addresses(base, k), i)
  {
    AddressesAre(base, k);
    assert LinkAt(m, ring, i);
  }

  lemma NewLink(m: Memory, m': Memory, ring: seq<int>, base: int, k: nat, i: nat)
    requires IsRing(m, ring) && k >= 1 && Unused(m, base, k) && |ring| <= i < |ring| + k
    requires Spliced(m, m', ring[|ring| - 1], ring[0], base, k)
    ensures |Addresses(base, k)| == k && LinkAt(m', ring + Addresses(base, k), i)
  {
    AddressesAre(base, k);
  }

  class Queue {
    var slots: Memory
    var head: int
    var tail: int
    var numSlots: nat
    var usedSlots: nat
    var isEmpty: bool
    /** The addresses in link order from the head on. */
    ghost var ring: seq<int>

    ghost predicate Valid()
      reads this
    {
      && IsRing(slots, ring) && numSlots == |ring| && usedSlots < numSlots
      && head == ring[0] && tail == ring[usedSlots]
      && (isEmpty <==> usedSlots == 0)
    }

    ghost function Contents(): seq<Item>
      reads this
      requires Valid()
    {
      Items(slots, ring, usedSlots)
    }

    constructor (base: int, n: nat)
      requires n >= 1
      ensures Valid() && Contents() == [] && numSlots == n
    {
      slots, head, tail := FirstSegment(base, n), base, base;
      numSlots, usedSlots, isEmpty := n, 0, true;
      ring := Addresses(base, n);
      new;
      FirstSegmentIsRing(base, n);
    }

    method GetHead() returns (item: Option<Item>)
      requires Valid()
      modifies this
      ensures Valid() && slots == old(slots)
      ensures Apply(None, old(Contents()), Op.GetHead(item)) == Legal(Contents())
    {
      if isEmpty { return None; }
      var first := RemoveFirst();
      item := Some(first);
    }

    method RemoveFirst() returns (item: Item)
      requires Valid() && usedSlots > 0
      modifies this
      ensures Valid() && slots == old(slots) && old(Contents()) == [item] + Contents()
    {
      ghost var left, used := Left(ring), usedSlots;
      assert LinkAt(slots, ring, 0);
      LinkedInverse(slots, ring[0], ring[1]);
      RotateLeft(slots, ring);
      ItemsLeft(slots, ring, used);
      var newHead := if slots[head].next.Some? then slots[head].next.value else head + 1;
      item := slots[newHead].item;
      head := newHead;
      ring := left;
      usedSlots := usedSlots - 1;
      if usedSlots == 0 {
        isEmpty := true;
      }
      assert Contents() == Items(slots, left, used - 1);
    }

    method GetTail() returns (item: Option<Item>)
      requires Valid()
      modifies this
      ensures Valid() && slots == old(slots)
      ensures Apply(None, old(Contents()), Op.GetTail(item)) == Legal(Contents())
    {
      if isEmpty { return None; }
      assert LinkAt(slots, ring, usedSlots - 1);
      LinkedInverse(slots, ring[usedSlots - 1], ring[usedSlots]);
      item := Some(slots[tail].item);
      tail := if slots[tail].prev.Some? then slots[tail].prev.value else tail - 1;
      usedSlots := usedSlots - 1;
      if usedSlots == 0 {
        isEmpty := true;
      }
    }

    /** Adds a segment of k slots that malloc has placed at `base`; called only when the queue is full. */
    method AddSlots(base: int, k: nat)
      requires Valid() && usedSlots == numSlots - 1 && k >= 1
      requires Unused(slots, base, k)
      modifies this
      ensures Valid() && numSlots == old(numSlots) + k && usedSlots == old(usedSlots)
      ensures Contents() == old(Contents())
    {
      ghost var m, q := slots, Contents();
      assert LinkAt(slots, ring, |ring| - 1);
      slots := Splice(slots, tail, head, base, k);
      SplicedIsRing(m, slots, ring, base, k);
      numSlots := numSlots + k;
      ring := ring + Addresses(base, k);
      assert Contents() == q;
    }

    /** Only a full queue grows, so the fresh segment is needed only then. */
    method PutTail(item: Item, base: int)
      requires Valid() && Unused(slots, base, numSlots)
      modifies this
      ensures Valid()
      ensures Apply(None, old(Contents()), Op.PutTail(item, true)) == Legal(Contents())
      ensures Contents() == old(Contents()) + [item]
    {
      if usedSlots == numSlots - 1 {
        AddSlots(base, numSlots);
      }
      AppendItem(item);
    }

    method AppendItem(item: Item)
      requires Valid() && usedSlots + 1 < numSlots
      modifies this
      ensures Valid() && Contents() == old(Contents()) + [item]
    {
      assert LinkAt(slots, ring, usedSlots);
      LinkedInverse(slots, tail, ring[usedSlots + 1]);
      var newTail := if slots[tail].next.Some? then slots[tail].next.value else tail + 1;
      WriteKeepsRing(slots, ring, newTail, item);
      ItemsPutTail(slots, ring, usedSlots, item);
      slots := Write(slots, newTail, item);
      tail := newTail;
      usedSlots := usedSlots + 1;
      isEmpty := false;
    }

    method PutHead(item: Item, base: int)
      requires Valid() && Unused(slots, base, numSlots)
      modifies this
      ensures Valid()
      ensures Apply(None, old(Contents()), Op.PutHead(item, true)) == Legal(Contents())
      ensures Contents() == [item] + old(Contents())
    {
      if usedSlots == numSlots - 1 {
        AddSlots(base, numSlots);
      }
      PrependItem(item);
    }

    method PrependItem(item: Item)
      requires Valid() && usedSlots + 1 < numSlots
      modifies this
      ensures Valid() && Contents() == [item] + old(Contents())
    {
      ghost var m, right := slots, Right(ring);
      assert LinkAt(m, ring, |ring| - 1);
      LinkedInverse(m, right[0], head);
      WriteKeepsRing(m, ring, head, item);
      RotateRight(Write(m, head, item), ring);
      ItemsPutHead(m, ring, usedSlots, item);
      slots := Write(slots, head, item);
      head := if slots[head].prev.Some? then slots[head].prev.value else head - 1;
      ring := right;
      usedSlots := usedSlots + 1;
      isEmpty := false;
      assert Contents() == Items(slots, right, usedSlots);
    }
  }
}
