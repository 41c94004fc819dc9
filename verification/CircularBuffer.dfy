/** The ring buffer of include/hohnor/common/CircularBuffer.h: one slot is always left free. */
module CircularBuffer {
  import opened Options

  /** The index after i, which the source writes as (i + 1) % n. */
  function Next(i: nat, n: nat): nat
    requires i < n
  {
    if i + 1 < n then i + 1 else 0
  }

  lemma NextIsRemainder(i: nat, n: nat)
    requires i < n
    ensures Next(i, n) == (i + 1) % n
  {
  }

  class CircularBuffer<T> {
    const buffer: array<T>
    const emptyItem: T
    var head: nat
    var tail: nat

    ghost predicate Valid()
      reads this
    {
      buffer.Length >= 3 && head < buffer.Length && tail < buffer.Length
    }

    /** The number of items that fit. */
    function MaxSize(): int
    {
      buffer.Length - 1
    }

    /** The items from oldest to newest. */
    ghost function Contents(): seq<T>
      requires Valid()
      reads this, buffer
    {
      if head <= tail then buffer[head..tail] else buffer[head..] + buffer[..tail]
    }

    constructor (maxSize: nat, emptyItem: T)
      requires maxSize >= 2
      ensures Valid() && fresh(buffer) && MaxSize() == maxSize && Contents() == []
    {
      buffer := new T[maxSize + 1](_ => emptyItem);
      this.emptyItem := emptyItem;
      head := 0;
      tail := 0;
    }

    predicate Empty()
      requires Valid()
      reads this, buffer
      ensures Empty() <==> Contents() == []
    {
      head == tail
    }

    predicate Full()
      requires Valid()
      reads this, buffer
      ensures Full() <==> |Contents()| == MaxSize()
    {
      Next(tail, buffer.Length) == head
    }

    function Size(): (n: nat)
      requires Valid()
      reads this, buffer
      ensures n == |Contents()| <= MaxSize()
    {
      if tail >= head then tail - head else buffer.Length - (head - tail)
    }

    /** False stands for the exception "buffer is full". */
    method Enqueue(item: T) returns (ok: bool)
      requires Valid()
      modifies this`tail, buffer
      ensures Valid()
      ensures ok <==> |old(Contents())| < MaxSize()
      ensures Contents() == old(Contents()) + if ok then [item] else []
    {
      if Full() {
        return false;
      }
      ghost var was := Contents();
      buffer[tail] := item;
      tail := Next(tail, buffer.Length);
      assert Contents() == was + [item];
      return true;
    }

    /** None stands for the exception "buffer is empty". */
    method Dequeue() returns (item: Option<T>)
      requires Valid()
      modifies this`head, buffer
      ensures Valid()
      ensures item.None? <==> old(Contents()) == []
      ensures old(Contents()) == (if item.Some? then [item.value] else []) + Contents()
    {
      if Empty() {
        return None;
      }
      ghost var was := Contents();
      var front := buffer[head];
      buffer[head] := emptyItem;
      head := Next(head, buffer.Length);
      assert was == [front] + Contents();
      return Some(front);
    }
  }
}
