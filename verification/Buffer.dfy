/**
 The byte buffer of include/hohnor/common/Buffer.h and its readFd (src/net/Buffer.cpp): one
 array cut into prependable, readable and writable bytes by two indices.
 */
module Buffer {

  const CHEAP_PREPEND: nat := 8
  const INITIAL_SIZE: nat := 1024
  /** The size of the overflow buffer that readFd keeps on the stack. */
  const EXTRA: nat := 65536

  // ---------- What a caller can observe ----------

  /** The readable bytes and the room before and after them. */
  datatype View = View(readable: string, prependable: nat, writable: nat)
  {
    function Size(): nat { prependable + |readable| + writable }
  }

  function Empty(initialSize: nat): View
  {
    View("", CHEAP_PREPEND, initialSize)
  }

  /** Room is made by moving the bytes to the front when that is enough, and by growing otherwise. */
  function EnsureWritable(v: View, len: nat): (v': View)
    ensures v'.writable >= len && v'.readable == v.readable && v'.Size() >= v.Size()
  {
    if v.writable >= len then v
    else if v.writable + v.prependable < len + CHEAP_PREPEND then v.(writable := len)
    else View(v.readable, CHEAP_PREPEND, v.writable + v.prependable - CHEAP_PREPEND)
  }

  function Append(v: View, text: string): View
  {
    var e := EnsureWritable(v, |text|);
    View(e.readable + text, e.prependable, e.writable - |text|)
  }

  function RetrieveAll(v: View): View
    requires v.Size() >= CHEAP_PREPEND
  {
    View("", CHEAP_PREPEND, v.Size() - CHEAP_PREPEND)
  }

  function Retrieve(v: View, len: nat): View
    requires v.Size() >= CHEAP_PREPEND && len <= |v.readable|
  {
    if len < |v.readable| then View(v.readable[len..], v.prependable + len, v.writable) else RetrieveAll(v)
  }

  function Prepend(v: View, text: string): View
    requires |text| <= v.prependable
  {
    View(text + v.readable, v.prependable - |text|, v.writable)
  }

  function Unwrite(v: View, len: nat): View
    requires len <= |v.readable|
  {
    View(v.readable[..|v.readable| - len], v.prependable, v.writable + len)
  }

  function Shrink(v: View, reserve: nat): View
  {
    Append(EnsureWritable(Empty(INITIAL_SIZE), |v.readable| + reserve), v.readable)
  }

  /** At most this many bytes arrive in one call of readFd. */
  function ReadLimit(v: View): nat
  {
    v.writable + if v.writable < EXTRA then EXTRA else 0
  }

  /** The tail is filled first; what is left over is appended from the overflow buffer. */
  function ReadFd(v: View, bytes: string): View
  {
    if |bytes| <= v.writable then View(v.readable + bytes, v.prependable, v.writable - |bytes|)
    else Append(View(v.readable + bytes[..v.writable], v.prependable, 0), bytes[v.writable..])
  }

  // ---------- Sequences of operations ----------

  datatype Op =
    | OpAppend(text: string)
    | OpPrepend(text: string)
    | OpRetrieve(len: nat)
    | OpUnwrite(len: nat)
    | OpEnsureWritable(len: nat)
    | OpShrink(len: nat)
    | OpReadFd(text: string)

  /** What the assertions of the source ask of a caller. */
  predicate Allowed(v: View, op: Op)
  {
    match op
    case OpPrepend(text) => |text| <= v.prependable
    case OpRetrieve(len) => len <= |v.readable|
    case OpUnwrite(len) => len <= |v.readable|
    case OpReadFd(text) => |text| <= ReadLimit(v)
    case _ => true
  }

  function Do(v: View, op: Op): View
    requires v.Size() >= CHEAP_PREPEND && Allowed(v, op)
  {
    match op
    case OpAppend(text) => Append(v, text)
    case OpPrepend(text) => Prepend(v, text)
    case OpRetrieve(len) => Retrieve(v, len)
    case OpUnwrite(len) => Unwrite(v, len)
    case OpEnsureWritable(len) => EnsureWritable(v, len)
    case OpShrink(reserve) => Shrink(v, reserve)
    case OpReadFd(text) => ReadFd(v, text)
  }

  /** The same operation on a plain byte sequence; nothing is said about room. */
  function OnBytes(s: string, op: Op): string
  {
    match op
    case OpAppend(text) => s + text
    case OpReadFd(text) => s + text
    case OpPrepend(text) => text + s
    case OpRetrieve(len) => if len <= |s| then s[len..] else s
    case OpUnwrite(len) => if len <= |s| then s[..|s| - len] else s
    case _ => s
  }

  lemma DoActsOnBytes(v: View, op: Op)
    requires v.Size() >= CHEAP_PREPEND && Allowed(v, op)
    ensures Do(v, op).readable == OnBytes(v.readable, op)
    ensures Do(v, op).Size() >= CHEAP_PREPEND
    ensures op.OpEnsureWritable? ==> Do(v, op).writable >= op.len
  {
  }

  ghost predicate AllowedRun(v: View, ops: seq<Op>)
    requires v.Size() >= CHEAP_PREPEND
    decreases |ops|
  {
    ops != [] ==>
      && Allowed(v, ops[0])
      && (DoActsOnBytes(v, ops[0]); AllowedRun(Do(v, ops[0]), ops[1..]))
  }

  function RunOnBytes(s: string, ops: seq<Op>): string
    decreases |ops|
  {
    if ops == [] then s else RunOnBytes(OnBytes(s, ops[0]), ops[1..])
  }

  ghost function Run(v: View, ops: seq<Op>): View
    requires v.Size() >= CHEAP_PREPEND && AllowedRun(v, ops)
    decreases |ops|
  {
    if ops == [] then v else (DoActsOnBytes(v, ops[0]); Run(Do(v, ops[0]), ops[1..]))
  }

  /**
   Main result: any sequence of operations that respects the assertions acts on the readable
   bytes exactly as on a plain sequence, whatever moves and growth happen underneath.
   */
  lemma {:induction false} ActsLikeBytes(v: View, ops: seq<Op>)
    requires v.Size() >= CHEAP_PREPEND && AllowedRun(v, ops)
    ensures Run(v, ops).readable == RunOnBytes(v.readable, ops) && Run(v, ops).Size() >= CHEAP_PREPEND
    decreases |ops|
  {
    if ops != [] {
      DoActsOnBytes(v, ops[0]);
      ActsLikeBytes(Do(v, ops[0]), ops[1..]);
    }
  }

  /** What was appended can be taken back, and what was prepended can be retrieved. */
  lemma UndoLaws(v: View, text: string)
    requires v.Size() >= CHEAP_PREPEND
    ensures Unwrite(Append(v, text), |text|).readable == v.readable
    ensures |text| <= v.prependable && v.readable != "" ==> Retrieve(Prepend(v, text), |text|) == v
  {
  }

  /**
   The room an operation leaves: shrink keeps the reserve it was given, and the size is reduced by
   shrink alone and grows only when neither the tail nor moving to the front makes enough room.
   */
  lemma RoomLeft(v: View, op: Op)
    requires v.Size() >= CHEAP_PREPEND && Allowed(v, op)
    ensures op.OpShrink? ==>
              && Do(v, op).writable >= op.len
              && Do(v, op).Size() == 8 + if |v.readable| + op.len > 1024 then |v.readable| + op.len else 1024
    ensures op.OpRetrieve? || op.OpPrepend? || op.OpUnwrite? ==> Do(v, op).Size() == v.Size()
    ensures op.OpRetrieve? && op.len == |v.readable| ==> Do(v, op).prependable == 8
    ensures op.OpEnsureWritable? ==>
              (Do(v, op).Size() > v.Size() <==> op.len > v.writable && op.len + 8 > v.writable + v.prependable)
    ensures op.OpAppend? ==>
              (Do(v, op).Size() > v.Size() <==> |op.text| > v.writable && |op.text| + 8 > v.writable + v.prependable)
    ensures op.OpAppend? || op.OpEnsureWritable? || op.OpReadFd? ==> Do(v, op).Size() >= v.Size()
  {
  }

  // ---------- The buffer ----------

  datatype ReadOutcome = ReadError | ReadBytes(bytes: string)

  class Buffer {
    var data: array<char>
    var readerIndex: nat
    var writerIndex: nat

    ghost predicate Valid()
      reads this
    {
      readerIndex <= writerIndex <= data.Length && data.Length >= CHEAP_PREPEND
    }

    ghost function Observed(): View
      requires Valid()
      reads this, data
    {
      View(data[readerIndex..writerIndex], readerIndex, data.Length - writerIndex)
    }

    constructor (initialSize: nat)
      ensures Valid() && fresh(data) && Observed() == Empty(initialSize)
    {
      data := new char[CHEAP_PREPEND + initialSize](_ => '\0');
      readerIndex := CHEAP_PREPEND;
      writerIndex := CHEAP_PREPEND;
    }

    function ReadableBytes(): nat
      requires Valid()
      reads this
    {
      writerIndex - readerIndex
    }

    function WritableBytes(): nat
      requires Valid()
      reads this
    {
      data.Length - writerIndex
    }

    /** peek() and readableBytes() together. */
    function Slice(): (text: string)
      requires Valid()
      reads this, data
      ensures text == Observed().readable
    {
      data[readerIndex..writerIndex]
    }

    method RetrieveAll()
      requires Valid()
      modifies this`readerIndex, this`writerIndex
      ensures Valid() && Observed() == Retrieve(old(Observed()), |old(Observed()).readable|)
    {
      readerIndex := CHEAP_PREPEND;
      writerIndex := CHEAP_PREPEND;
    }

    method RetrieveBytes(len: nat)
      requires Valid() && len <= ReadableBytes()
      modifies this`readerIndex, this`writerIndex
      ensures Valid() && Observed() == Retrieve(old(Observed()), len)
    {
      if len < ReadableBytes() {
        readerIndex := readerIndex + len;
      } else {
        RetrieveAll();
      }
    }

    method RetrieveAsString(len: nat) returns (text: string)
      requires Valid() && len <= ReadableBytes()
      modifies this`readerIndex, this`writerIndex
      ensures Valid() && Observed() == Retrieve(old(Observed()), len)
      ensures text == old(Observed()).readable[..len]
    {
      text := Slice()[..len];
      RetrieveBytes(len);
    }

    /** std::copy towards the front, one byte after the other; the two ranges may overlap. */
    method MoveToFront(ghost readable: string)
      requires Valid() && CHEAP_PREPEND < readerIndex && readable == data[readerIndex..writerIndex]
      modifies data
      ensures data[CHEAP_PREPEND..CHEAP_PREPEND + (writerIndex - readerIndex)] == readable
    {
      var n := writerIndex - readerIndex;
      for i := 0 to n
        invariant forall k :: 0 <= k < i ==> data[CHEAP_PREPEND + k] == readable[k]
        invariant forall k :: i <= k < n ==> data[readerIndex + k] == readable[k]
      {
        data[CHEAP_PREPEND + i] := data[readerIndex + i];
      }
    }

    /** vector::resize: the bytes stay where they are. */
    method Resize(size: nat)
      requires Valid() && size >= data.Length
      modifies this`data
      ensures fresh(data) && data.Length == size && data[..old(data.Length)] == old(data[..])
    {
      var bigger := new char[size](_ => '\0');
      forall i | 0 <= i < data.Length { bigger[i] := data[i]; }
      data := bigger;
    }

    method MakeSpace(len: nat)
      requires Valid() && WritableBytes() < len
      modifies this, data
      ensures Valid() && (data == old(data) || fresh(data))
      ensures Observed() == EnsureWritable(old(Observed()), len)
    {
      ghost var was := Observed();
      if WritableBytes() + readerIndex < len + CHEAP_PREPEND {
        Resize(writerIndex + len);
        assert data[readerIndex..writerIndex] == was.readable;
      } else {
        var readable := ReadableBytes();
        MoveToFront(was.readable);
        readerIndex := CHEAP_PREPEND;
        writerIndex := readerIndex + readable;
      }
    }

    method EnsureWritableBytes(len: nat)
      requires Valid()
      modifies this, data
      ensures Valid() && (data == old(data) || fresh(data))
      ensures Observed() == EnsureWritable(old(Observed()), len)
    {
      if WritableBytes() < len {
        MakeSpace(len);
      }
    }

    /** std::copy of text to the bytes from index at on; the other bytes stay. */
    method CopyTo(at: nat, text: string)
      requires at + |text| <= data.Length
      modifies data
      ensures data[..at] == old(data[..at])
      ensures data[at..at + |text|] == text
      ensures data[at + |text|..] == old(data[at + |text|..])
    {
      forall i | 0 <= i < |text| { data[at + i] := text[i]; }
    }

    /** std::copy to beginWrite() followed by hasWritten. */
    method WriteTail(text: string)
      requires Valid() && |text| <= WritableBytes()
      modifies this`writerIndex, data
      ensures Valid() && readerIndex == old(readerIndex) && writerIndex == old(writerIndex) + |text|
      ensures Observed().readable == old(Observed().readable) + text
    {
      ghost var head := data[..writerIndex];
      CopyTo(writerIndex, text);
      assert data[readerIndex..writerIndex] == head[readerIndex..];
      assert data[readerIndex..writerIndex + |text|] ==
             data[readerIndex..writerIndex] + data[writerIndex..writerIndex + |text|];
      writerIndex := writerIndex + |text|;
    }

    method AppendText(text: string)
      requires Valid()
      modifies this, data
      ensures Valid() && (data == old(data) || fresh(data))
      ensures Observed() == Append(old(Observed()), text)
    {
      EnsureWritableBytes(|text|);
      WriteTail(text);
    }

    method PrependText(text: string)
      requires Valid() && |text| <= readerIndex
      modifies this`readerIndex, data
      ensures Valid() && Observed() == Prepend(old(Observed()), text)
    {
      ghost var was := Observed();
      ghost var tail := data[readerIndex..];
      readerIndex := readerIndex - |text|;
      CopyTo(readerIndex, text);
      assert data[readerIndex + |text|..writerIndex] == tail[..|was.readable|];
      assert data[readerIndex..writerIndex] ==
             data[readerIndex..readerIndex + |text|] + data[readerIndex + |text|..writerIndex];
    }

    method UnwriteBytes(len: nat)
      requires Valid() && len <= ReadableBytes()
      modifies this`writerIndex
      ensures Valid() && Observed() == Unwrite(old(Observed()), len)
    {
      ghost var was := Observed();
      writerIndex := writerIndex - len;
      assert data[readerIndex..writerIndex] == was.readable[..|was.readable| - len];
    }

    method Swap(rhs: Buffer)
      requires Valid() && rhs.Valid()
      modifies this, rhs
      ensures Valid() && rhs.Valid()
      ensures data == old(rhs.data) && rhs.data == old(data)
      ensures readerIndex == old(rhs.readerIndex) && rhs.readerIndex == old(readerIndex)
      ensures writerIndex == old(rhs.writerIndex) && rhs.writerIndex == old(writerIndex)
    {
      data, rhs.data := rhs.data, data;
      readerIndex, rhs.readerIndex := rhs.readerIndex, readerIndex;
      writerIndex, rhs.writerIndex := rhs.writerIndex, writerIndex;
    }

    method ShrinkTo(reserve: nat)
      requires Valid()
      modifies this
      ensures Valid() && fresh(data) && Observed() == Shrink(old(Observed()), reserve)
    {
      var other := new Buffer(INITIAL_SIZE);
      other.EnsureWritableBytes(ReadableBytes() + reserve);
      other.AppendText(Slice());
      Swap(other);
    }

    /** readv fills the writable tail first and then the overflow buffer, which is appended. */
    method ReadFromFd(outcome: ReadOutcome) returns (n: int)
      requires Valid() && (outcome.ReadBytes? ==> |outcome.bytes| <= ReadLimit(Observed()))
      modifies this, data
      ensures Valid() && (data == old(data) || fresh(data))
      ensures n == if outcome.ReadError? then -1 else |outcome.bytes|
      ensures Observed() == if outcome.ReadError? then old(Observed()) else ReadFd(old(Observed()), outcome.bytes)
    {
      if outcome.ReadError? {
        return -1;
      }
      var bytes := outcome.bytes;
      var writable := WritableBytes();
      ghost var was := Observed();
      assert writable == was.writable;
      if |bytes| <= writable {
        WriteTail(bytes);
      } else {
        WriteTail(bytes[..writable]);
        assert Observed() == View(was.readable + bytes[..writable], was.prependable, 0);
        AppendText(bytes[writable..]);
      }
      assert Observed() == ReadFd(was, bytes);
      return |bytes|;
    }
  }
}
