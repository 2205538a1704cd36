/**
 * The growable byte store of the asynchronous logger (log/logs/buffer.hpp).
 * Storage is the vector `_buffer`; bytes in [readerIdx, writerIdx) are the
 * readable ones, bytes in [writerIdx, |storage|) are free.
 */
module LogBuffer {

  const DEFAULT_BUFFER_SIZE: nat := 10 * 1024 * 1024
  const THRESHOLD_BUFFER_SIZE: nat := 8 * 1024 * 1024
  const INCREMENT_BUFFER_SIZE: nat := 1 * 1024 * 1024

  /**
   * Capacity after `ensureEnoughSize(len)` with capacity `cap` and write
   * cursor `writer`: unchanged when `len` is strictly below the writable
   * space, otherwise doubled plus `len` below the threshold, or one single
   * increment at or above it.
   */
  function GrownCapacity(cap: nat, writer: nat, len: nat): nat
    requires writer <= cap
  {
    if len < cap - writer then cap
    else if cap < THRESHOLD_BUFFER_SIZE then cap * 2 + len
    else cap + INCREMENT_BUFFER_SIZE
  }

  /** The assertion in `moveWriter` holds after growth: the bytes fit. */
  predicate CanPush(cap: nat, writer: nat, len: nat)
    requires writer <= cap
  {
    writer + len <= GrownCapacity(cap, writer, len)
  }

  /**
   * Growth never shrinks; it leaves the capacity alone when `len` is below
   * the writable space and grows it otherwise, also when `len` equals the
   * writable space exactly (the test is strict).
   */
  lemma GrowthMonotone(cap: nat, writer: nat, len: nat)
    requires writer <= cap
    ensures GrownCapacity(cap, writer, len) >= cap
    ensures len < cap - writer ==> GrownCapacity(cap, writer, len) == cap
    ensures len >= cap - writer && cap > 0 ==> GrownCapacity(cap, writer, len) > cap
  {
  }

  /** Below the threshold the doubling step always leaves room for `len`. */
  lemma DoublingAlwaysFits(cap: nat, writer: nat, len: nat)
    requires writer <= cap && cap < THRESHOLD_BUFFER_SIZE
    ensures CanPush(cap, writer, len)
    ensures len >= cap - writer ==> GrownCapacity(cap, writer, len) >= 2 * cap + len
  {
  }

  /**
   * At or above the threshold the increment is applied once, so a push
   * succeeds exactly when `len` is at most the writable space plus 1 MiB.
   */
  lemma LinearGrowthBound(cap: nat, writer: nat, len: nat)
    requires writer <= cap && cap >= THRESHOLD_BUFFER_SIZE
    ensures CanPush(cap, writer, len) <==> len <= cap - writer + INCREMENT_BUFFER_SIZE
    ensures GrownCapacity(cap, writer, len) in {cap, cap + INCREMENT_BUFFER_SIZE}
  {
  }

  class Buffer {
    var storage: seq<char>
    var readerIdx: nat
    var writerIdx: nat

    /**
     * Cursor order, plus the fact that a buffer is never smaller than the
     * default: the only constructor allocates DEFAULT_BUFFER_SIZE bytes and
     * no operation shrinks the storage.
     */
    ghost predicate Valid()
      reads this
    {
      readerIdx <= writerIdx <= |storage| && |storage| >= DEFAULT_BUFFER_SIZE
    }

    function Capacity(): nat
      reads this
    {
      |storage|
    }

    /** The readable bytes, what `begin()` points at for `readAbleSize()` bytes. */
    function Readable(): seq<char>
      reads this
      requires Valid()
    {
      storage[readerIdx..writerIdx]
    }

    constructor ()
      ensures Valid()
      ensures Capacity() == DEFAULT_BUFFER_SIZE
      ensures readerIdx == 0 && writerIdx == 0 && Readable() == []
    {
      storage := seq(DEFAULT_BUFFER_SIZE, _ => '\0');
      readerIdx := 0;
      writerIdx := 0;
    }

    method Push(data: seq<char>)
      requires Valid()
      requires CanPush(|storage|, writerIdx, |data|)
      modifies this
      ensures Valid()
      ensures Readable() == old(Readable()) + data
      ensures writerIdx == old(writerIdx) + |data| && readerIdx == old(readerIdx)
      ensures Capacity() == GrownCapacity(old(Capacity()), old(writerIdx), |data|)
      ensures storage[..old(writerIdx)] == old(storage[..writerIdx])
    {
      EnsureEnoughSize(|data|);
      ghost var grown := storage;
      assert grown[readerIdx..writerIdx] == old(Readable());
      storage := storage[..writerIdx] + data + storage[writerIdx + |data|..];
      assert storage[readerIdx..writerIdx + |data|] == grown[readerIdx..writerIdx] + data;
      MoveWriter(|data|);
    }

    method WriteAbleSize() returns (n: nat)
      requires Valid()
      ensures writerIdx + n == Capacity()
    {
      n := |storage| - writerIdx;
    }

    method ReadAbleSize() returns (n: nat)
      requires Valid()
      ensures n == |Readable()|
    {
      n := writerIdx - readerIdx;
    }

    method MoveReader(len: nat)
      requires Valid()
      requires len <= |Readable()|
      modifies this`readerIdx
      ensures Valid()
      ensures readerIdx == old(readerIdx) + len
      ensures Readable() == old(Readable())[len..]
    {
      readerIdx := readerIdx + len;
    }

    method Reset()
      requires Valid()
      modifies this`readerIdx, this`writerIdx
      ensures Valid()
      ensures readerIdx == 0 && writerIdx == 0 && Readable() == []
    {
      writerIdx := 0;
      readerIdx := 0;
    }

    method Swap(other: Buffer)
      requires Valid() && other.Valid()
      modifies this, other
      ensures Valid() && other.Valid()
      ensures storage == old(other.storage) && other.storage == old(storage)
      ensures readerIdx == old(other.readerIdx) && other.readerIdx == old(readerIdx)
      ensures writerIdx == old(other.writerIdx) && other.writerIdx == old(writerIdx)
    {
      var s, r, w := storage, readerIdx, writerIdx;
      storage, readerIdx, writerIdx := other.storage, other.readerIdx, other.writerIdx;
      other.storage, other.readerIdx, other.writerIdx := s, r, w;
    }

    method Empty() returns (b: bool)
      requires Valid()
      ensures b <==> Readable() == []
      ensures b <==> readerIdx == writerIdx
    {
      b := readerIdx == writerIdx;
    }

    /**
     * Since every buffer holds at least DEFAULT_BUFFER_SIZE bytes, which is
     * past the threshold, growth only ever adds one increment.
     */
    method EnsureEnoughSize(len: nat)
      requires Valid()
      modifies this`storage
      ensures Valid()
      ensures Capacity() == GrownCapacity(old(Capacity()), writerIdx, len)
      ensures Capacity() == old(Capacity()) || Capacity() == old(Capacity()) + INCREMENT_BUFFER_SIZE
      ensures len < old(Capacity()) - writerIdx ==> storage == old(storage)
      ensures storage[..old(Capacity())] == old(storage)
    {
      if len < |storage| - writerIdx {
        return;
      }
      var newSize := 0;
      if |storage| < THRESHOLD_BUFFER_SIZE {
        newSize := |storage| * 2 + len;
      } else {
        newSize := |storage| + INCREMENT_BUFFER_SIZE;
      }
      storage := storage + seq(newSize - |storage|, _ => '\0');
    }

    method MoveWriter(len: nat)
      requires Valid()
      requires len + writerIdx <= Capacity()
      modifies this`writerIdx
      ensures Valid()
      ensures writerIdx == old(writerIdx) + len
      ensures Readable() == old(storage[readerIdx..writerIdx + len])
    {
      writerIdx := writerIdx + len;
    }
  }

  /** Swapping twice restores both buffers, as the consumer loop relies on. */
  method SwapTwice(a: Buffer, b: Buffer)
    requires a.Valid() && b.Valid()
    modifies a, b
    ensures a.Valid() && b.Valid()
    ensures a.storage == old(a.storage) && a.readerIdx == old(a.readerIdx) && a.writerIdx == old(a.writerIdx)
    ensures b.storage == old(b.storage) && b.readerIdx == old(b.readerIdx) && b.writerIdx == old(b.writerIdx)
  {
    a.Swap(b);
    a.Swap(b);
  }
}
