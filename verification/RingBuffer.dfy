/** The fixed-capacity ring that holds the newest log entries. */
module RingBuffers {
  import opened Seqs

  lemma ModWraps(x: nat, n: nat)
    requires n > 0 && x < 2 * n
    ensures x % n == if x < n then x else x - n
  {
    var q := x / n;
    assert x == n * q + x % n;
    if q >= 1 {
      assert n * q == n + n * (q - 1) && n * (q - 1) >= 0;
    }
  }

  /** The slot of the `i`-th oldest of `size` elements when the next one goes to `head`. */
  function Slot(head: nat, size: nat, capacity: nat, i: nat): (k: nat)
    requires i < size <= capacity && head < capacity
    ensures k < capacity
  {
    var start := if head < size then head - size + capacity else head - size;
    if start + i < capacity then start + i else start + i - capacity
  }

  /** The elements of a ring, oldest first. */
  function View<T>(slots: seq<T>, head: nat, size: nat): (s: seq<T>)
    requires head < |slots| && size <= |slots|
    ensures |s| == size
    ensures forall i :: 0 <= i < size ==> s[i] == slots[Slot(head, size, |slots|, i)]
  {
    seq(size, i requires 0 <= i < size => slots[Slot(head, size, |slots|, i)])
  }

  /** Writing at the head, moving it and growing up to the capacity keeps the newest elements. */
  lemma ViewAppend<T>(slots: seq<T>, head: nat, size: nat, item: T)
    requires head < |slots| && size <= |slots|
    ensures var next := if head + 1 < |slots| then head + 1 else 0;
      View(slots[head := item], next, if size < |slots| then size + 1 else size) ==
        LastN(View(slots, head, size) + [item], |slots|)
  {
    var n := |slots|;
    var next := if head + 1 < n then head + 1 else 0;
    var size' := if size < n then size + 1 else size;
    var after, all := View(slots[head := item], next, size'), View(slots, head, size) + [item];
    assert |LastN(all, n)| == size';
    forall i | 0 <= i < size' ensures after[i] == LastN(all, n)[i] {
      var k := Slot(next, size', n, i);
      assert after[i] == slots[head := item][k];
      if i == size' - 1 {
        assert k == head;
      } else {
        assert k == Slot(head, size, n, if size < n then i else i + 1);
      }
    }
  }

  class RingBuffer<T(0)> {
    const capacity: nat
    const items: array<T>
    var head: nat
    var size: nat

    ghost predicate Valid()
      reads this
    {
      items.Length == capacity > 0 && head < capacity && size <= capacity
    }

    /** The buffered elements, oldest first. */
    ghost function Contents(): seq<T>
      requires Valid()
      reads this, items
    {
      View(items[..], head, size)
    }

    constructor (wanted: int)
      ensures Valid() && fresh(items) && capacity == (if wanted < 1 then 1 else wanted)
      ensures Contents() == []
    {
      var n: nat := if wanted < 1 then 1 else wanted;
      capacity := n;
      items := new T[n];
      head, size := 0, 0;
    }

    /** Appending keeps the newest `capacity` elements. */
    method Append(item: T)
      requires Valid()
      modifies this, items
      ensures Valid()
      ensures Contents() == LastN(old(Contents()) + [item], capacity)
    {
      hide View, LastN;
      ViewAppend(items[..], head, size, item);
      ModWraps(head + 1, capacity);
      items[head] := item;
      assert items[..] == old(items[..])[old(head) := item];
      head := (head + 1) % capacity;
      if size < capacity {
        size := size + 1;
      }
    }

    method Snapshot() returns (out: seq<T>)
      requires Valid()
      ensures out == Contents()
    {
      out := [];
      var start: int := head - size;
      if start < 0 {
        start := start + capacity;
      }
      for i := 0 to size
        invariant out == Contents()[..i]
      {
        ModWraps(start + i, capacity);
        var index := (start + i) % capacity;
        assert items[index] == Contents()[i];
        out := out + [items[index]];
      }
    }

    method Reset()
      requires Valid()
      modifies this, items
      ensures Valid() && Contents() == []
    {
      var zero: T := *;
      for i := 0 to items.Length {
        items[i] := zero;
      }
      head, size := 0, 0;
    }
  }
}
