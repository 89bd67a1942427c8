/**
 * The bounded byte FIFO the bridge uses in both directions: a ring of
 * CAPACITY bytes over a fixed backing array, with an input cursor, an output
 * cursor and a count, as LUFA's RingBuffer_t keeps them.  The ghost field
 * Contents is the abstract view: the queued bytes, oldest first.
 */
module RingBuffers {

  /** Size of USBtoUSART_Buffer_Data and USARTtoUSB_Buffer_Data. */
  const CAPACITY: nat := 128

  /** The cursor after `i`, wrapping from the end of the backing array to its start. */
  function Next(i: nat): (j: nat)
    requires i < CAPACITY
    ensures j < CAPACITY && j == (i + 1) % CAPACITY
  {
    if i + 1 == CAPACITY then 0 else i + 1
  }

  class ByteFifo {
    // public view
    ghost var Contents: seq<bv8>

    // implementation
    const data: array<bv8>
    var inIdx: nat
    var outIdx: nat
    var count: nat

    ghost predicate Valid()
      reads this, data
    {
      && data.Length == CAPACITY
      && inIdx < CAPACITY && outIdx < CAPACITY && count <= CAPACITY
      && inIdx == (outIdx + count) % CAPACITY
      && |Contents| == count
      && forall i :: 0 <= i < count ==> Contents[i] == data[(outIdx + i) % CAPACITY]
    }

    /** A buffer over a fresh backing array, already initialised (empty). */
    constructor ()
      ensures Valid() && fresh(data)
      ensures Contents == []
    {
      data := new bv8[CAPACITY];
      inIdx, outIdx, count := 0, 0, 0;
      Contents := [];
    }

    /** RingBuffer_InitBuffer: forget every queued byte. */
    method InitBuffer()
      requires data.Length == CAPACITY
      modifies this
      ensures Valid() && Contents == []
    {
      inIdx, outIdx, count := 0, 0, 0;
      Contents := [];
    }

    /** RingBuffer_GetCount */
    function GetCount(): (n: nat)
      requires Valid()
      reads this, data
      ensures n == |Contents| && n <= CAPACITY
    {
      count
    }

    /** RingBuffer_IsFull */
    function IsFull(): (full: bool)
      requires Valid()
      reads this, data
      ensures full <==> |Contents| == CAPACITY
    {
      count == CAPACITY
    }

    /** RingBuffer_IsEmpty */
    function IsEmpty(): (empty: bool)
      requires Valid()
      reads this, data
      ensures empty <==> Contents == []
    {
      count == 0
    }

    /** RingBuffer_Peek: the oldest byte, left in place. */
    function Peek(): (b: bv8)
      requires Valid() && Contents != []
      reads this, data
      ensures b == Contents[0]
    {
      data[outIdx]
    }

    /** RingBuffer_Insert: append at the input cursor.  Callers check IsFull first. */
    method Insert(b: bv8)
      requires Valid() && |Contents| < CAPACITY
      modifies this, data
      ensures Valid()
      ensures Contents == old(Contents) + [b]
    {
      data[inIdx] := b;
      inIdx := Next(inIdx);
      count := count + 1;
      Contents := Contents + [b];
    }

    /** RingBuffer_Remove: take the oldest byte.  Callers check IsEmpty first. */
    method Remove() returns (b: bv8)
      requires Valid() && Contents != []
      modifies this
      ensures Valid()
      ensures b == old(Contents)[0] && Contents == old(Contents)[1..]
    {
      b := data[outIdx];
      outIdx := Next(outIdx);
      count := count - 1;
      Contents := Contents[1..];
    }
  }
}
