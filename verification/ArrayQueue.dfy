/**
The array deque.  Items live in the slots after head_index up to tail_index, wrapping round; one slot stays
free.  Each operation runs under the queue's lock from its check to its last write, so it is one method here.
*/
module ArrayQueue {
  import opened Arith
  import opened Deque

  /** An index less than two laps round the ring. */
  function Wrap(i: nat, n: nat): nat
    requires i < 2 * n
  {
    if i < n then i else i - n
  }

  lemma WrapIsMod(i: nat, n: nat)
    requires i < 2 * n
    ensures Wrap(i, n) == i % n
  {
    DivModUnique(i, n, if i < n then 0 else 1, Wrap(i, n));
  }

  /** The index before i on the ring. */
  function Before(i: nat, n: nat): (k: nat)
    requires i < n
    ensures k == if i > 0 then i - 1 else n - 1
  {
    if i > 0 then
      ModSmall(i - 1, n);
      (i - 1) % n
    else n - 1
  }

  /** The `used` items after the head slot. */
  function Slice(slots: seq<Item>, head: nat, used: nat): (q: seq<Item>)
    requires head < |slots| && used <= |slots|
    ensures |q| == used
    ensures forall i :: 0 <= i < used ==> q[i] == slots[Wrap(head + 1 + i, |slots|)]
  {
    seq(used, i requires 0 <= i < used => slots[Wrap(head + 1 + i, |slots|)])
  }

  /** The distance from head to tail, as the FIFO variants compute it. */
  function Distance(head: nat, tail: nat, n: nat): (d: nat)
    requires head < n && tail < n
    ensures d < n && Wrap(head + d, n) == tail
  {
    if tail >= head then tail - head else n - (head - tail)
  }

  /** Moving the head over `k` items drops them. */
  lemma SliceDrop(slots: seq<Item>, head: nat, used: nat, k: nat)
    requires head < |slots| && k <= used < |slots|
    ensures Slice(slots, Wrap(head + k, |slots|), used - k) == Slice(slots, head, used)[k..]
  {
  }

  /** Moving the tail back over one item drops it. */
  lemma SliceDropLast(slots: seq<Item>, head: nat, used: nat)
    requires head < |slots| && 0 < used < |slots|
    ensures Slice(slots, head, used) == Slice(slots, head, used - 1) + [slots[Wrap(head + used, |slots|)]]
  {
  }

  lemma SlicePutTail(slots: seq<Item>, head: nat, used: nat, x: Item)
    requires head < |slots| && used + 1 < |slots|
    ensures Slice(slots[Wrap(head + used + 1, |slots|) := x], head, used + 1) == Slice(slots, head, used) + [x]
  {
  }

  lemma SlicePutHead(slots: seq<Item>, head: nat, used: nat, x: Item)
    requires head < |slots| && used + 1 < |slots|
    ensures Slice(slots[head := x], Wrap(head + |slots| - 1, |slots|), used + 1) == [x] + Slice(slots, head, used)
  {
  }

  /** An array twice as long that continues where the old one wrapped holds the same items. */
  lemma SliceGrow(small: seq<Item>, grown: seq<Item>, head: nat, used: nat)
    requires head < |small| && used < |small| && |grown| == 2 * |small|
    requires forall i :: 0 <= i < used ==> grown[head + 1 + i] == Slice(small, head, used)[i]
    ensures Slice(grown, head, used) == Slice(small, head, used)
  {
  }

  /**
  A chunk of `k` items: the first is returned, the others are copied to the front of another array, the rest
  stay.
  */
  lemma SliceSplit(slots: seq<Item>, head: nat, used: nat, k: nat, copy: seq<Item>)
    requires head < |slots| && 1 <= k <= used < |slots| && k <= |copy|
    requires forall i :: 1 <= i < k ==> copy[i] == slots[Wrap(Wrap(head + 1, |slots|) + i, |slots|)]
    ensures [slots[Wrap(head + 1, |slots|)]] + Slice(copy, 0, k - 1) + Slice(slots, Wrap(head + k, |slots|), used - k)
            == Slice(slots, head, used)
  {
    var q, rest := Slice(slots, head, used), Slice(copy, 0, k - 1);
    SliceDrop(slots, head, used, k);
    forall i | 0 <= i < k - 1 ensures rest[i] == q[1 + i] {
      assert copy[1 + i] == slots[Wrap(Wrap(head + 1, |slots|) + (1 + i), |slots|)];
    }
    assert q == [q[0]] + q[1..k] + q[k..];
    assert rest == q[1..k];
  }

  /** Items 1 to chunk - 1 from `start` on are at the front of the copy. */
  predicate Copied(slots: seq<Item>, copy: seq<Item>, start: nat, chunk: nat)
    requires start < |slots| && chunk <= |slots| && chunk <= |copy|
  {
    forall i :: 1 <= i < chunk ==> copy[i] == slots[Wrap(start + i, |slots|)]
  }

  lemma ChunkCopied(slots: seq<Item>, copy: seq<Item>, head: nat, used: nat, chunk: nat, start: nat, newHead: nat)
    requires head < |slots| && 1 <= chunk <= used < |slots| && chunk <= |copy|
    requires start == Wrap(head + 1, |slots|) && newHead == Wrap(head + chunk, |slots|)
    requires Copied(slots, copy, start, chunk)
    ensures [slots[start]] + Slice(copy, 0, chunk - 1) + Slice(slots, newHead, used - chunk) == Slice(slots, head, used)
  {
    SliceSplit(slots, head, used, chunk, copy);
  }

  /** What a transfer of at most `chunkSize` items from src to an empty queue of `room` slots must leave behind. */
  predicate Transferred(src: seq<Item>, src': seq<Item>, dst': seq<Item>, chunkSize: nat, room: nat,
      item: Option<Item>) {
    if src == [] || chunkSize == 0 then item == None && dst' == [] && src' == src
    else item.Some? && [item.value] + dst' + src' == src && 1 + |dst'| == Min(Min(chunkSize, |src|), room)
  }

  class Queue {
    var slots: array<Item>
    var headIndex: nat
    var tailIndex: nat
    var usedSlots: nat
    var isEmpty: bool

    /** The indices are in range, and is_empty says whether they meet. */
    ghost predicate Valid()
      reads this, slots
    {
      headIndex < slots.Length && tailIndex < slots.Length && (isEmpty <==> headIndex == tailIndex)
    }

    ghost function Used(): nat
      reads this, slots
      requires Valid()
    {
      Distance(headIndex, tailIndex, slots.Length)
    }

    /** The deque operations also keep a count. */
    ghost predicate Counted()
      reads this, slots
    {
      Valid() && usedSlots == Used()
    }

    ghost function Contents(): seq<Item>
      reads this, slots
      requires Valid()
    {
      Slice(slots[..], headIndex, Used())
    }

    /** A fixed array keeps one slot free. */
    ghost function Capacity(): Option<nat>
      reads this, slots
      requires Valid()
    {
      Some(slots.Length - 1)
    }

    constructor (numSlots: nat)
      requires numSlots >= 1
      ensures Counted() && Contents() == [] && slots.Length == numSlots && fresh(slots)
    {
      slots := new Item[numSlots](_ => 0);
      headIndex, tailIndex, usedSlots, isEmpty := 0, 0, 0, true;
    }

    /** The FIFO variants' count, from the two indices alone. */
    method CfifoNumUsedSlots() returns (used: nat)
      requires Valid()
      ensures used == |Contents()|
    {
      if tailIndex == headIndex {
        return 0;
      } else if tailIndex > headIndex {
        return tailIndex - headIndex;
      } else {
        return slots.Length - (headIndex - tailIndex);
      }
    }

    method GetHead() returns (item: Option<Item>)
      requires Counted()
      modifies this
      ensures Counted() && slots == old(slots)
      ensures Apply(Capacity(), old(Contents()), Op.GetHead(item)) == Legal(Contents())
    {
      if isEmpty { return None; }
      ghost var d := Used();
      SliceDrop(slots[..], headIndex, d, 1);
      WrapIsMod(headIndex + 1, slots.Length);
      var newHeadIndex := (headIndex + 1) % slots.Length;
      item := Some(slots[newHeadIndex]);
      headIndex := newHeadIndex;
      usedSlots := usedSlots - 1;
      if usedSlots == 0 {
        isEmpty := true;
      }
      assert Used() == d - 1 && Contents() == old(Contents())[1..];
    }

    method GetTail() returns (item: Option<Item>)
      requires Counted()
      modifies this
      ensures Counted() && slots == old(slots)
      ensures Apply(Capacity(), old(Contents()), Op.GetTail(item)) == Legal(Contents())
    {
      if isEmpty { return None; }
      ghost var d := Used();
      SliceDropLast(slots[..], headIndex, d);
      item := Some(slots[tailIndex]);
      tailIndex := Before(tailIndex, slots.Length);
      usedSlots := usedSlots - 1;
      if usedSlots == 0 {
        isEmpty := true;
      }
      assert Used() == d - 1;
    }

    /** A steal gives up when the lock is taken. */
    method StealHead(gotLock: bool) returns (item: Option<Item>)
      requires Counted()
      modifies this
      ensures Counted() && slots == old(slots)
      ensures if gotLock then Apply(Capacity(), old(Contents()), Op.GetHead(item)) == Legal(Contents())
              else item == None && Contents() == old(Contents())
    {
      if isEmpty || !gotLock { return None; }
      item := GetHead();
    }

    method StealTail(gotLock: bool) returns (item: Option<Item>)
      requires Counted()
      modifies this
      ensures Counted() && slots == old(slots)
      ensures if gotLock then Apply(Capacity(), old(Contents()), Op.GetTail(item)) == Legal(Contents())
              else item == None && Contents() == old(Contents())
    {
      if isEmpty || !gotLock { return None; }
      item := GetTail();
    }

    method PutTail(item: Item) returns (ok: bool)
      requires Counted()
      modifies this, slots
      ensures Counted() && slots == old(slots)
      ensures Apply(Capacity(), old(Contents()), Op.PutTail(item, ok)) == Legal(Contents())
      ensures ok == (|old(Contents())| + 1 < slots.Length)
      ensures Contents() == if ok then old(Contents()) + [item] else old(Contents())
    {
      if usedSlots == slots.Length - 1 { return false; }
      AppendItem(item);
      return true;
    }

    /** The part of a put at the tail that follows the check. */
    method AppendItem(item: Item)
      requires Counted() && usedSlots + 1 < slots.Length
      modifies this, slots
      ensures Counted() && slots == old(slots) && Contents() == old(Contents()) + [item]
    {
      ghost var d := Used();
      SlicePutTail(slots[..], headIndex, d, item);
      WrapIsMod(tailIndex + 1, slots.Length);
      tailIndex := (tailIndex + 1) % slots.Length;
      slots[tailIndex] := item;
      usedSlots := usedSlots + 1;
      isEmpty := false;
      assert Used() == d + 1;
    }

    method PutHead(item: Item) returns (ok: bool)
      requires Counted()
      modifies this, slots
      ensures Counted() && slots == old(slots)
      ensures Apply(Capacity(), old(Contents()), Op.PutHead(item, ok)) == Legal(Contents())
      ensures ok == (|old(Contents())| + 1 < slots.Length)
      ensures Contents() == if ok then [item] + old(Contents()) else old(Contents())
    {
      if usedSlots == slots.Length - 1 { return false; }
      PrependItem(item);
      return true;
    }

    /** The part of a put at the head that follows the check. */
    method PrependItem(item: Item)
      requires Counted() && usedSlots + 1 < slots.Length
      modifies this, slots
      ensures Counted() && slots == old(slots) && Contents() == [item] + old(Contents())
    {
      ghost var d := Used();
      SlicePutHead(slots[..], headIndex, d, item);
      slots[headIndex] := item;
      headIndex := Before(headIndex, slots.Length);
      usedSlots := usedSlots + 1;
      isEmpty := false;
      assert Used() == d + 1;
    }

    // ---------- growing ----------

    /** A longer copy of the slots; what had wrapped to the front is moved behind the old end. */
    static method Regrow(small: array<Item>, head: nat, tail: nat, newNumSlots: nat) returns (grown: array<Item>)
      requires head < small.Length && tail < small.Length && newNumSlots == 2 * small.Length
      ensures fresh(grown) && grown.Length == newNumSlots
      ensures forall j :: 0 <= j < small.Length ==> grown[j] == small[j]
      ensures tail < head ==> forall j :: 0 <= j <= tail ==> grown[small.Length + j] == small[j]
    {
      var n := small.Length;
      grown := new Item[newNumSlots](_ => 0);
      for i := 0 to n
        invariant forall j :: 0 <= j < i ==> grown[j] == small[j]
      {
        grown[i] := small[i];
      }
      if tail < head {
        for i := 0 to tail + 1
          invariant forall j :: 0 <= j < n ==> grown[j] == small[j]
          invariant forall j :: 0 <= j < i ==> grown[n + j] == small[j]
        {
          grown[n + i] := grown[i];
        }
      }
    }

    method Resize(newNumSlots: nat)
      requires Counted() && newNumSlots == 2 * slots.Length
      modifies this
      ensures Counted() && fresh(slots) && slots.Length == newNumSlots
      ensures Contents() == old(Contents()) && usedSlots == old(usedSlots)
    {
      var oldTailIndex, n := tailIndex, slots.Length;
      ghost var q := Contents();
      var grown := Regrow(slots, headIndex, tailIndex, newNumSlots);
      forall i | 0 <= i < |q| ensures grown[headIndex + 1 + i] == q[i] {
        if headIndex + 1 + i >= n {
          assert grown[n + (headIndex + 1 + i - n)] == slots[headIndex + 1 + i - n];
        }
      }
      SliceGrow(slots[..], grown[..], headIndex, |q|);
      slots := grown;
      if oldTailIndex < headIndex {
        tailIndex := oldTailIndex + n;
      }
      assert Used() == |q|;
    }

    /** The growing queue: a put always succeeds. */
    method DynPutTail(item: Item)
      requires Counted()
      modifies this, slots
      ensures Counted() && (slots == old(slots) || fresh(slots))
      ensures Apply(None, old(Contents()), Op.PutTail(item, true)) == Legal(Contents())
      ensures Contents() == old(Contents()) + [item]
    {
      if usedSlots == slots.Length - 1 {
        Resize(2 * slots.Length);
      }
      AppendItem(item);
    }

    method DynPutHead(item: Item)
      requires Counted()
      modifies this, slots
      ensures Counted() && (slots == old(slots) || fresh(slots))
      ensures Apply(None, old(Contents()), Op.PutHead(item, true)) == Legal(Contents())
      ensures Contents() == [item] + old(Contents())
    {
      if usedSlots == slots.Length - 1 {
        Resize(2 * slots.Length);
      }
      PrependItem(item);
    }

    // ---------- transferring a chunk ----------

    /** Copies all but the first of `chunk` items to dst, in one run or, where they wrap, in two. */
    method CopyChunk(dst: Queue, start: nat, newHead: nat, chunk: nat)
      requires start < slots.Length && 1 <= chunk <= dst.slots.Length && chunk < slots.Length && dst.slots != slots
      requires newHead == Wrap(start + chunk - 1, slots.Length)
      modifies dst.slots
      ensures Copied(slots[..], dst.slots[..], start, chunk) && slots[..] == old(slots[..])
    {
      if newHead >= start {
        for i := 1 to chunk
          invariant forall j :: 1 <= j < i ==> dst.slots[j] == slots[start + j]
        {
          dst.slots[i] := slots[start + i];
        }
      } else {
        var i := 1;
        for j := start + 1 to slots.Length
          invariant i == j - start
          invariant forall k :: 1 <= k < i ==> dst.slots[k] == slots[start + k]
        {
          dst.slots[i] := slots[j];
          i := i + 1;
        }
        for j := 0 to newHead + 1
          invariant i == slots.Length - start + j
          invariant forall k :: 1 <= k < i ==> dst.slots[k] == slots[Wrap(start + k, slots.Length)]
        {
          dst.slots[i] := slots[j];
          i := i + 1;
        }
      }
    }

    static method ChunkEnds(head: nat, n: nat, chunk: nat) returns (start: nat, newHead: nat)
      requires head < n && 1 <= chunk < n
      ensures start == Wrap(head + 1, n) && newHead == Wrap(head + chunk, n) == Wrap(start + chunk - 1, n)
    {
      WrapIsMod(head + 1, n);
      start := (head + 1) % n;
      WrapIsMod(start + chunk - 1, n);
      newHead := (start + chunk - 1) % n;
    }

    /** Reads the first item of a chunk, copies the others to dst, and says where the head goes. */
    method MoveChunk(dst: Queue, chunk: nat) returns (item: Item, newHead: nat)
      requires Valid() && 1 <= chunk <= Used() && chunk <= dst.slots.Length && dst.slots != slots
      modifies dst.slots
      ensures Valid() && newHead == Wrap(headIndex + chunk, slots.Length) && Contents() == old(Contents())
      ensures [item] + Slice(dst.slots[..], 0, chunk - 1) + Slice(slots[..], newHead, Used() - chunk) == Contents()
    {
      var start;
      start, newHead := ChunkEnds(headIndex, slots.Length, chunk);
      item := slots[start];
      CopyChunk(dst, start, newHead, chunk);
      ChunkCopied(slots[..], dst.slots[..], headIndex, Used(), chunk, start, newHead);
    }

    /** The chunk's items leave the queue. */
    method Drop(chunk: nat, newHead: nat)
      requires Counted() && 1 <= chunk <= usedSlots && newHead == Wrap(headIndex + chunk, slots.Length)
      modifies this`headIndex, this`usedSlots, this`isEmpty
      ensures Counted() && usedSlots == old(usedSlots) - chunk && Contents() == Slice(slots[..], newHead, usedSlots)
    {
      usedSlots := usedSlots - chunk;
      headIndex := newHead;
      if usedSlots == 0 { isEmpty := true; }
    }

    /** The empty queue takes over the items that have been copied to its first slots. */
    method Receive(count: nat)
      requires Valid() && isEmpty && count < slots.Length
      modifies this`headIndex, this`tailIndex, this`isEmpty
      ensures Valid() && Used() == count && Contents() == Slice(slots[..], 0, count)
    {
      headIndex, tailIndex := 0, count;
      if count > 0 { isEmpty := false; }
    }

    /** Takes a chunk from the head: one item is returned, the rest become the contents of dst, which was empty. */
    method TransferChunk(dst: Queue, chunkSize: nat) returns (item: Option<Item>)
      requires Counted() && dst.Counted() && dst.isEmpty && dst != this && dst.slots != slots
      modifies this, dst, dst.slots
      ensures Counted() && dst.Counted() && slots == old(slots) && dst.slots == old(dst.slots)
      ensures Transferred(old(Contents()), Contents(), dst.Contents(), chunkSize, dst.slots.Length, item)
    {
      if isEmpty || chunkSize == 0 { return None; }
      var chunk := Min(Min(chunkSize, usedSlots), dst.slots.Length);
      var first, newHead := MoveChunk(dst, chunk);
      item := Some(first);
      ghost var moved, rest := Slice(dst.slots[..], 0, chunk - 1), Slice(slots[..], newHead, usedSlots - chunk);
      Drop(chunk, newHead);
      dst.Receive(chunk - 1);
      dst.usedSlots := chunk - 1;
      assert Contents() == rest && dst.Contents() == moved;
    }

    /** As Drop, without the count. */
    method CfifoDrop(chunk: nat, newHead: nat)
      requires Valid() && 1 <= chunk <= Used() && newHead == Wrap(headIndex + chunk, slots.Length)
      modifies this`headIndex, this`isEmpty
      ensures Valid() && Used() == old(Used()) - chunk && Contents() == Slice(slots[..], newHead, old(Used()) - chunk)
    {
      headIndex := newHead;
      if newHead == tailIndex { isEmpty := true; }
    }

    /** The FIFO variant does without the count. */
    method CfifoTransferChunk(dst: Queue, chunkSize: nat) returns (item: Option<Item>)
      requires Valid() && dst.Valid() && dst.isEmpty && dst != this && dst.slots != slots
      modifies this, dst, dst.slots
      ensures Valid() && dst.Valid() && slots == old(slots) && dst.slots == old(dst.slots)
      ensures Transferred(old(Contents()), Contents(), dst.Contents(), chunkSize, dst.slots.Length, item)
    {
      if isEmpty || chunkSize == 0 { return None; }
      var used := CfifoNumUsedSlots();
      var chunk := Min(Min(chunkSize, used), dst.slots.Length);
      var first, newHead := MoveChunk(dst, chunk);
      item := Some(first);
      ghost var moved, rest := Slice(dst.slots[..], 0, chunk - 1), Slice(slots[..], newHead, used - chunk);
      CfifoDrop(chunk, newHead);
      dst.Receive(chunk - 1);
      assert Contents() == rest && dst.Contents() == moved;
    }
  }
}
