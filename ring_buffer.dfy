/** The fixed-capacity circular FIFO of examples/rnnoise_wrapper_demo.c.
    Samples are of an abstract type `T`; the C code stores floats. */
module RingBuffers {

  function Min(a: int, b: int): int
  {
    if a < b then a else b
  }

  /** For `0 <= k < 2 * c`, `k % c` is `k` or `k - c`. */
  lemma ModWrap(k: int, c: int)
    requires 0 <= k < 2 * c
    ensures k % c == if k < c then k else k - c
  {
    if k < c {
      assert k == 0 * c + k;
    } else {
      assert k == 1 * c + (k - c);
    }
  }

  /** How many steps forward, wrapping at `c`, it takes to get from cell
      `from` to cell `to`. */
  function Distance(from: nat, to: nat, c: nat): nat
    requires from < c
  {
    if from <= to then to - from else to + c - from
  }

  /** The cell `k` steps past cell 0 of a ring of `c` cells, for `k < 2 * c`. */
  function Slot(k: nat, c: nat): nat
  {
    if k < c then k else k - c
  }

  /** One step further round the ring. */
  lemma SlotStep(k: nat, c: nat)
    requires k + 1 < 2 * c
    ensures Slot(k + 1, c) == Slot(Slot(k, c) + 1, c)
    ensures Slot(k + 1, c) == (Slot(k, c) + 1) % c
  {
    ModWrap(Slot(k, c) + 1, c);
  }

  /** `contents` lies in the ring `cells` from cell `start` on, wrapping at the end. */
  ghost predicate Stored<T>(contents: seq<T>, cells: seq<T>, start: nat)
  {
    start < |cells| && |contents| <= |cells| &&
    forall i :: 0 <= i < |contents| ==> contents[i] == cells[Slot(start + i, |cells|)]
  }

  /** The abstract state of a ring of `cap` cells with read position `rp`
      and write position `wp` holding `contents`. */
  ghost predicate Consistent<T>(contents: seq<T>, cells: seq<T>, cap: nat, rp: nat, wp: nat)
  {
    |cells| == cap && |contents| <= cap &&
    (cap == 0 ==> rp == 0 && wp == 0) &&
    (cap > 0 ==> Stored(contents, cells, rp) && wp == Slot(rp + |contents|, cap))
  }

  /** One step of `ring_buffer_write` on a buffer that is not full. */
  lemma ConsistentPush<T>(contents: seq<T>, cells: seq<T>, cap: nat, rp: nat, wp: nat, x: T)
    requires Consistent(contents, cells, cap, rp, wp) && |contents| < cap
    ensures Consistent(contents + [x], cells[wp := x], cap, rp, (wp + 1) % cap)
  {
    SlotStep(rp + |contents|, cap);
  }

  /** One step of `ring_buffer_read` on a buffer that is not empty. */
  lemma ConsistentPop<T>(contents: seq<T>, cells: seq<T>, cap: nat, rp: nat, wp: nat)
    requires Consistent(contents, cells, cap, rp, wp) && contents != []
    ensures cells[rp] == contents[0]
    ensures Consistent(contents[1..], cells, cap, (rp + 1) % cap, wp)
  {
    ModWrap(rp + 1, cap);
    assert contents[0] == cells[Slot(rp + 0, cap)];
  }

  /** Every cell of `cells` other than the `n` cells from `from` on is as in `before`. */
  ghost predicate UntouchedBeyond<T>(cells: seq<T>, before: seq<T>, from: nat, n: nat)
    requires from < |cells| == |before|
  {
    forall j :: 0 <= j < |cells| && Distance(from, j, |cells|) >= n ==> cells[j] == before[j]
  }

  lemma UntouchedStep<T>(cells: seq<T>, before: seq<T>, from: nat, n: nat, x: T)
    requires from < |cells| == |before| && n < |cells|
    requires UntouchedBeyond(cells, before, from, n)
    ensures UntouchedBeyond(cells[Slot(from + n, |cells|) := x], before, from, n + 1)
  {
  }

  class RingBuffer<T(0)> {
    var data: array?<T>
    var capacity: nat
    var size: nat
    var readPos: nat
    var writePos: nat

    /** The elements held, oldest first. */
    ghost var Contents: seq<T>

    ghost predicate Valid()
      reads this, data
    {
      |Contents| == size &&
      (data == null ==> capacity == 0 && size == 0 && readPos == 0 && writePos == 0) &&
      (data != null ==> Consistent(Contents, data[..], capacity, readPos, writePos))
    }

    /** `RingBuffer buffer;` before `ring_buffer_init`: no storage yet. */
    constructor ()
      ensures Valid() && data == null && capacity == 0
      ensures size == 0 && readPos == 0 && writePos == 0 && Contents == []
    {
      data, capacity, size, readPos, writePos := null, 0, 0, 0, 0;
      Contents := [];
    }

    /** `ring_buffer_init`: `allocates` says whether `malloc` succeeded. On
        failure `data` is NULL, the other fields are untouched and 0 is
        returned. */
    method Init(cap: nat, allocates: bool) returns (ok: int)
      modifies this
      ensures allocates ==> (ok == 1 && Valid() && fresh(data) && capacity == cap &&
        size == 0 && readPos == 0 && writePos == 0 && Contents == [])
      ensures !allocates ==> (ok == 0 && data == null && capacity == old(capacity) &&
        size == old(size) && readPos == old(readPos) && writePos == old(writePos))
    {
      if !allocates {
        data := null;
        return 0;
      }
      data := new T[cap];
      capacity, size, readPos, writePos := cap, 0, 0, 0;
      Contents := [];
      return 1;
    }

    /** `ring_buffer_free`: back to the empty, storage-less state. */
    method Free()
      modifies this
      ensures Valid() && data == null && capacity == 0
      ensures size == 0 && readPos == 0 && writePos == 0 && Contents == []
    {
      data := null;
      capacity, size, readPos, writePos := 0, 0, 0, 0;
      Contents := [];
    }

    /** The body of `ring_buffer_write`'s loop: one element into the cell
        at the write position, which then moves one cell on. */
    method WriteOne(x: T)
      requires Valid() && size < capacity
      modifies this, data
      ensures Valid() && data == old(data) && capacity == old(capacity) && readPos == old(readPos)
      ensures Contents == old(Contents) + [x] && size == old(size) + 1
      ensures writePos == (old(writePos) + 1) % capacity
      ensures data[..] == old(data[..])[old(writePos) := x]
    {
      ConsistentPush(Contents, data[..], capacity, readPos, writePos, x);
      data[writePos] := x;
      Contents := Contents + [x];
      writePos := (writePos + 1) % capacity;
      size := size + 1;
    }

    /** `ring_buffer_write`: appends `input[..count]` one element at a time
        until the buffer is full, and returns how many went in. */
    method Write(input: seq<T>, count: nat) returns (written: nat)
      requires Valid()
      requires Min(count, capacity - size) <= |input|
      modifies this, data
      ensures Valid() && data == old(data) && capacity == old(capacity)
      ensures written == Min(count, old(capacity - size))
      ensures Contents == old(Contents) + input[..written]
      ensures size == old(size) + written && readPos == old(readPos)
      ensures old(size) == capacity ==> written == 0 && unchanged(this)
      // only the `written` cells from the old write position on were touched
      ensures capacity > 0 ==> UntouchedBeyond(data[..], old(data[..]), old(writePos), written)
    {
      written := 0;
      while written < count && size < capacity
        invariant Valid() && data == old(data) && capacity == old(capacity)
        invariant written <= count && size == old(size) + written
        invariant readPos == old(readPos)
        invariant Contents == old(Contents) + input[..written]
        invariant capacity > 0 ==> UntouchedBeyond(data[..], old(data[..]), old(writePos), written)
        invariant written == 0 ==> unchanged(this)
        decreases count - written
      {
        assert input[..written + 1] == input[..written] + [input[written]];
        UntouchedStep(data[..], old(data[..]), old(writePos), written, input[written]);
        WriteOne(input[written]);
        written := written + 1;
      }
    }

    /** The body of `ring_buffer_read`'s loop: the element in the cell at the
        read position, which then moves one cell on. */
    method ReadOne() returns (x: T)
      requires Valid() && size > 0
      modifies this
      ensures Valid() && data == old(data) && capacity == old(capacity) && writePos == old(writePos)
      ensures x == old(Contents)[0] && Contents == old(Contents)[1..] && size == old(size) - 1
    {
      ConsistentPop(Contents, data[..], capacity, readPos, writePos);
      x := data[readPos];
      Contents := Contents[1..];
      readPos := (readPos + 1) % capacity;
      size := size - 1;
    }

    /** `ring_buffer_read`: moves the oldest `min(count, size)` elements into
        `output`, one at a time, and returns how many it moved. */
    method Read(output: array<T>, count: nat) returns (readCount: nat)
      requires Valid()
      requires output != data
      requires Min(count, size) <= output.Length
      modifies this, output
      ensures Valid() && data == old(data) && capacity == old(capacity)
      ensures readCount == Min(count, old(size))
      ensures forall j :: 0 <= j < readCount ==> output[j] == old(Contents)[j]
      ensures forall j :: readCount <= j < output.Length ==> output[j] == old(output[j])
      ensures Contents == old(Contents)[readCount..]
      ensures size == old(size) - readCount && writePos == old(writePos)
      ensures data != null ==> unchanged(data)
    {
      readCount := 0;
      while readCount < count && size > 0
        invariant Valid() && data == old(data) && capacity == old(capacity)
        invariant readCount <= count && size == old(size) - readCount
        invariant writePos == old(writePos)
        invariant Contents == old(Contents)[readCount..]
        invariant forall j :: 0 <= j < readCount ==> output[j] == old(Contents)[j]
        invariant forall j :: readCount <= j < output.Length ==> output[j] == old(output[j])
        invariant data != null ==> unchanged(data)
        decreases count - readCount
      {
        var x := ReadOne();
        output[readCount] := x;
        readCount := readCount + 1;
      }
    }
  }

  /** The invariants kept in the C fields, the last one stated with C's
      modulo: the buffer never holds more than its capacity, both positions
      stay inside the storage, and the write position trails the read
      position by the size. */
  lemma FieldInvariants<T(0)>(b: RingBuffer<T>)
    requires b.Valid()
    ensures b.size <= b.capacity
    ensures b.capacity > 0 ==> b.readPos < b.capacity && b.writePos < b.capacity
    ensures b.capacity > 0 ==> b.writePos == (b.readPos + b.size) % b.capacity
  {
    if b.capacity > 0 {
      ModWrap(b.readPos + b.size, b.capacity);
    }
  }

  /** Writing up to `capacity` elements into a fresh buffer and then reading
      as many gives them back in the order they were written. */
  method WriteThenRead<T(0)>(input: seq<T>, cap: nat) returns (output: seq<T>)
    requires |input| <= cap
    ensures output == input
  {
    var buffer := new RingBuffer<T>();
    var ok := buffer.Init(cap, true);
    var written := buffer.Write(input, |input|);
    var out := new T[|input|];
    var got := buffer.Read(out, |input|);
    output := out[..got];
  }
}
