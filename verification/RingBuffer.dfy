/** The sample queue between capture and playback as its callers use it, one call at a time. */
module RingBuffer {
  import opened CircularIndex
  import opened Lists

  function Wrap(i: nat, size: nat): (w: nat)
    requires i < 2 * size
    ensures w < size
  {
    if i < size then i else i - size
  }

  class RingBuffer<T(0)> {
    const buffer: array<T>
    var writeIndex: nat
    var readIndex: nat
    /** The elements in the queue, oldest first. */
    ghost var contents: seq<T>

    ghost predicate Valid()
      reads this, buffer
    {
      && readIndex < buffer.Length
      && |contents| < buffer.Length
      && writeIndex == Wrap(readIndex + |contents|, buffer.Length)
      && (forall i | 0 <= i < |contents| :: buffer[Wrap(readIndex + i, buffer.Length)] == contents[i])
    }

    constructor (capacity: nat)
      ensures Valid() && fresh(buffer) && contents == [] && buffer.Length == capacity + 1
    {
      buffer := new T[capacity + 1];
      writeIndex, readIndex := 0, 0;
      contents := [];
    }

    /** Appends the longest prefix of the data that fits. */
    method Push(data: seq<T>) returns (written: nat)
      requires Valid()
      modifies this, buffer
      ensures Valid()
      ensures written == Min(|data|, buffer.Length - 1 - |old(contents)|)
      ensures contents == old(contents) + data[..written]
    {
      written := 0;
      while written < |data|
        invariant Valid() && written <= |data|
        invariant contents == old(contents) + data[..written]
      {
        var nextWriteIdx := Bump(writeIndex, buffer.Length);
        if nextWriteIdx == readIndex {
          break;
        }
        buffer[writeIndex] := data[written];
        contents := contents + [data[written]];
        written := written + 1;
        writeIndex := nextWriteIdx;
      }
    }

    /** Removes up to `count` elements from the front. */
    method Pop(count: nat) returns (out: seq<T>)
      requires Valid()
      modifies this
      ensures Valid()
      ensures |out| == Min(count, |old(contents)|)
      ensures out == old(contents)[..|out|] && contents == old(contents)[|out|..]
    {
      out := [];
      while |out| < count
        invariant Valid() && |out| <= count && |out| <= |old(contents)|
        invariant out == old(contents)[..|out|] && contents == old(contents)[|out|..]
      {
        if readIndex == writeIndex {
          break;
        }
        out := out + [buffer[readIndex]];
        contents := contents[1..];
        readIndex := Bump(readIndex, buffer.Length);
      }
    }

    method AvailableToRead() returns (available: nat)
      requires Valid()
      ensures available == |contents|
    {
      SmallRemainder(|contents|, buffer.Length);
      RemainderAfterRound(|contents|, buffer.Length);
      available := (writeIndex + buffer.Length - readIndex) % buffer.Length;
    }
  }
}
