/** The single-producer/single-consumer ring buffer and the double buffers of
    src/buffers.hpp and src/ring_buffer.hpp, modelled sequentially: every
    atomic load and store is an ordinary field access. */
module Buffers {
  import opened Common

  /** (i + 1) % Size, the index after i around the ring. */
  function Next(i: nat, size: nat): (j: nat)
    requires i < size
    ensures j == if i + 1 == size then 0 else i + 1
  {
    (i + 1) % size
  }

  /** The occupied part of a ring of slots, from tail (inclusive) to head
      (exclusive), wrapping around the end. */
  function Window<T>(slots: seq<T>, tail: nat, head: nat): (w: seq<T>)
    requires tail < |slots| && head < |slots|
    ensures |w| == if tail <= head then head - tail else |slots| - tail + head
    ensures |w| <= |slots| - 1
  {
    if tail <= head then slots[tail..head] else slots[tail..] + slots[..head]
  }

  /** Writing the head slot and advancing head appends to the window. */
  lemma WindowPush<T>(slots: seq<T>, tail: nat, head: nat, x: T)
    requires tail < |slots| && head < |slots|
    requires Next(head, |slots|) != tail
    ensures Window(slots[head := x], tail, Next(head, |slots|)) == Window(slots, tail, head) + [x]
  {
    var s' := slots[head := x];
    if head + 1 == |slots| {
      assert s'[tail..] == slots[tail..head] + [x];
    } else {
      if tail <= head {
        assert s'[tail..head + 1] == slots[tail..head] + [x];
      } else {
        assert s'[tail..] == slots[tail..];
        assert s'[..head + 1] == slots[..head] + [x];
      }
    }
  }

  /** Advancing tail drops the oldest slot of a non-empty window. */
  lemma WindowPop<T>(slots: seq<T>, tail: nat, head: nat)
    requires tail < |slots| && head < |slots| && tail != head
    ensures Window(slots, tail, head) != []
    ensures Window(slots, tail, head)[0] == slots[tail]
    ensures Window(slots, Next(tail, |slots|), head) == Window(slots, tail, head)[1..]
  {
    var w := Window(slots, tail, head);
    var n := Next(tail, |slots|);
    if tail < head {
      assert n == tail + 1;
      assert w[1..] == slots[tail + 1..head] == Window(slots, n, head);
    } else if tail + 1 == |slots| {
      assert n == 0;
      assert w == [slots[tail]] + slots[..head];
      assert w[1..] == slots[0..head] == Window(slots, n, head);
    } else {
      assert n == tail + 1 && head < n;
      assert w[1..] == slots[tail + 1..] + slots[..head] by {
        assert w == [slots[tail]] + (slots[tail + 1..] + slots[..head]);
      }
    }
  }

  /** LockFreeRingBuffer<T, Size>: a fixed array with head (next write) and
      tail (next read); one slot always stays free, so it holds Size-1 items. */
  class LockFreeRingBuffer<T(0)> {
    const size: nat
    const buffer: array<T>
    var head: nat
    var tail: nat

    ghost predicate Valid()
      reads this
    {
      size >= 1 && buffer.Length == size && head < size && tail < size
    }

    /** The items in the order pop will return them. */
    ghost function Contents(): (c: seq<T>)
      reads this, buffer
      requires Valid()
      ensures |c| <= size - 1
      ensures c == [] <==> head == tail
    {
      Window(buffer[..], tail, head)
    }

    constructor (size: nat)
      requires size >= 1
      ensures Valid() && fresh(buffer)
      ensures this.size == size && head == 0 && tail == 0
      ensures Contents() == []
    {
      this.size := size;
      buffer := new T[size];
      head := 0;
      tail := 0;
    }

    /** Fails, changing nothing, exactly when Size-1 items are held;
        otherwise appends the item. */
    method Push(item: T) returns (ok: bool)
      requires Valid()
      modifies this`head, buffer
      ensures Valid() && tail == old(tail)
      ensures ok <==> |old(Contents())| < size - 1
      ensures ok ==> Contents() == old(Contents()) + [item]
      ensures !ok ==> head == old(head) && buffer[..] == old(buffer[..])
    {
      var nextHead := Next(head, size);
      if nextHead == tail {
        return false;
      }
      WindowPush(buffer[..], tail, head, item);
      buffer[head] := item;
      head := nextHead;
      ok := true;
    }

    /** Empty exactly when head == tail; otherwise removes and returns the
        oldest item. */
    method Pop() returns (r: Option<T>)
      requires Valid()
      modifies this`tail
      ensures Valid() && head == old(head)
      ensures r.None? <==> old(head) == old(tail)
      ensures r.None? <==> old(Contents()) == []
      ensures r.None? ==> tail == old(tail)
      ensures r.Some? ==> r.value == old(Contents())[0] && Contents() == old(Contents())[1..]
    {
      if head == tail {
        return None;
      }
      WindowPop(buffer[..], tail, head);
      var item := buffer[tail];
      tail := Next(tail, size);
      r := Some(item);
    }
  }

  /** Items leave in the order they entered: on an empty buffer with room for
      two, push a, push b, then two pops give a, then b, and the buffer is
      empty again. */
  method FifoOrder<T(0)>(rb: LockFreeRingBuffer<T>, a: T, b: T) returns (first: Option<T>, second: Option<T>)
    requires rb.Valid() && rb.Contents() == [] && rb.size >= 3
    modifies rb, rb.buffer
    ensures rb.Valid() && rb.Contents() == []
    ensures first == Some(a) && second == Some(b)
  {
    var ok1 := rb.Push(a);
    var ok2 := rb.Push(b);
    first := rb.Pop();
    second := rb.Pop();
  }

  /** DoubleBufferMat, DoubleBufferVec, DoubleBufferList and DoubleBuffer<T>:
      two slots, readers see the active one, a writer fills the other one and
      then flips the active index. */
  class DoubleBuffer<T(0)> {
    const buffers: array<T>
    var activeBuffer: int

    ghost predicate Valid()
      reads this
    {
      buffers.Length == 2 && (activeBuffer == 0 || activeBuffer == 1)
    }

    /** What get returns. */
    ghost function Value(): T
      reads this, buffers
      requires Valid()
    {
      buffers[activeBuffer]
    }

    /** The default constructor: both slots default-constructed. */
    constructor Empty()
      ensures Valid() && fresh(buffers) && activeBuffer == 0
    {
      buffers := new T[2];
      activeBuffer := 0;
    }

    /** The constructor with initial data fills both slots. */
    constructor (initialData: T)
      ensures Valid() && fresh(buffers) && activeBuffer == 0
      ensures buffers[0] == initialData && buffers[1] == initialData
      ensures Value() == initialData
    {
      buffers := new T[2](_ => initialData);
      activeBuffer := 0;
    }

    /** Writes the inactive slot, then publishes it; the previously published
        value stays intact in the other slot. */
    method Update(data: T)
      requires Valid()
      modifies this`activeBuffer, buffers
      ensures Valid()
      ensures activeBuffer == 1 - old(activeBuffer)
      ensures Value() == data
      ensures buffers[old(activeBuffer)] == old(Value())
    {
      var writeIndex := 1 - activeBuffer;
      buffers[writeIndex] := data;
      activeBuffer := writeIndex;
    }

    /** Reads the active slot and changes nothing. */
    method Get() returns (v: T)
      requires Valid()
      ensures v == Value()
    {
      v := buffers[activeBuffer];
    }
  }

  /** Two updates bring the active index back and leave the latest value
      published: get always answers the most recent update. */
  method UpdateTwice<T(0)>(d: DoubleBuffer<T>, a: T, b: T) returns (v: T)
    requires d.Valid()
    modifies d, d.buffers
    ensures d.Valid() && d.activeBuffer == old(d.activeBuffer)
    ensures v == b && d.buffers[1 - d.activeBuffer] == a
  {
    d.Update(a);
    d.Update(b);
    v := d.Get();
  }
}
