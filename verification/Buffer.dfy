/** The buffer as the source has it: a vector and two indices, moved and grown in place. */
module Buffers {
  import opened BufferLayout

  class Buffer {
    var buffer: array<byte>
    var readerIndex: nat
    var writerIndex: nat

    ghost predicate Valid()
      reads this
    {
      CHEAP_PREPEND <= readerIndex <= writerIndex <= buffer.Length
    }

    ghost function Contents(): seq<byte>
      requires Valid()
      reads this, buffer
    {
      buffer[readerIndex..writerIndex]
    }

    ghost function Value(): (b: Layout)
      requires Valid()
      reads this, buffer
      ensures b.Valid() && b.Writable() == buffer.Length - writerIndex
    {
      Layout(buffer.Length, readerIndex, Contents())
    }

    constructor (initialSize: nat)
      ensures Valid() && fresh(buffer)
      ensures Value() == Layout(initialSize + CHEAP_PREPEND, CHEAP_PREPEND, [])
    {
      buffer := new byte[initialSize + CHEAP_PREPEND](_ => 0);
      readerIndex, writerIndex := CHEAP_PREPEND, CHEAP_PREPEND;
    }

    method ReadableBytes() returns (n: nat)
      requires Valid()
      ensures n == |Contents()|
    {
      n := writerIndex - readerIndex;
    }

    method WritableBytes() returns (n: nat)
      requires Valid()
      ensures n == Value().Writable()
    {
      n := buffer.Length - writerIndex;
    }

    method RetrieveAll()
      requires Valid()
      modifies this`readerIndex, this`writerIndex
      ensures Valid() && Value() == BufferLayout.RetrieveAll(old(Value()))
    {
      readerIndex := CHEAP_PREPEND;
      writerIndex := CHEAP_PREPEND;
    }

    method Retrieve(len: nat)
      requires Valid()
      modifies this`readerIndex, this`writerIndex
      ensures Valid() && Value() == BufferLayout.Retrieve(old(Value()), len)
    {
      if len < writerIndex - readerIndex {
        readerIndex := readerIndex + len;
      } else {
        RetrieveAll();
      }
    }

    method RetrieveAsString(len: nat) returns (result: seq<byte>)
      requires Valid() && len <= |Contents()|
      modifies this`readerIndex, this`writerIndex
      ensures Valid() && result + Contents() == old(Contents())
      ensures |result| == len && Value() == BufferLayout.Retrieve(old(Value()), len)
    {
      result := buffer[readerIndex..readerIndex + len];
      assert Contents() == result + buffer[readerIndex + len..writerIndex];
      Retrieve(len);
    }

    /** The vector is replaced by a larger one with the same bytes in front. */
    method Resize(size: nat)
      requires Valid() && buffer.Length <= size
      modifies this`buffer
      ensures Valid() && fresh(buffer) && buffer.Length == size
      ensures Contents() == old(Contents())
    {
      var bytes := buffer;
      var larger := new byte[size](i requires 0 <= i reads bytes => if i < bytes.Length then bytes[i] else 0);
      buffer := larger;
    }

    /** A forward copy of `count` bytes from `from` down to `to`: each byte is read before it is overwritten
        because the copy moves left. */
    method CopyLeft(from: nat, count: nat, to: nat)
      requires to < from && from + count <= buffer.Length
      modifies buffer
      ensures buffer[to..to + count] == old(buffer[from..from + count])
    {
      ghost var source := buffer[from..from + count];
      var i := 0;
      while i < count
        invariant 0 <= i <= count
        invariant buffer[to..to + i] == source[..i]
        invariant buffer[from + i..from + count] == source[i..]
      {
        assert buffer[from + i] == buffer[from + i..from + count][0];
        buffer[to + i] := buffer[from + i];
        assert buffer[to..to + i + 1] == buffer[to..to + i] + [buffer[to + i]];
        i := i + 1;
      }
    }

    method MakeSpace(len: nat)
      requires Valid() && len > Value().Writable()
      modifies this, buffer
      ensures Valid() && Value() == BufferLayout.MakeSpace(old(Value()), len)
      ensures buffer == old(buffer) || fresh(buffer)
    {
      if buffer.Length - writerIndex + readerIndex < len + CHEAP_PREPEND {
        Resize(writerIndex + len);
      } else {
        var readable := writerIndex - readerIndex;
        assert CHEAP_PREPEND < readerIndex;
        CopyLeft(readerIndex, readable, CHEAP_PREPEND);
        readerIndex := CHEAP_PREPEND;
        writerIndex := CHEAP_PREPEND + readable;
      }
    }

    method EnsureWritableBytes(len: nat)
      requires Valid()
      modifies this, buffer
      ensures Valid() && Value() == EnsureWritable(old(Value()), len)
      ensures Contents() == old(Contents()) && Value().Writable() >= len
      ensures buffer == old(buffer) || fresh(buffer)
    {
      EnsureWritableMakesRoom(Value(), len);
      if len > buffer.Length - writerIndex {
        MakeSpace(len);
      }
    }

    /** The bytes go to the writable area; as written, the writer index stays where it is. */
    method CopyIn(bytes: seq<byte>)
      requires Valid() && |bytes| <= Value().Writable()
      modifies buffer
      ensures Contents() == old(Contents())
      ensures buffer[writerIndex..writerIndex + |bytes|] == bytes
    {
      var i := 0;
      while i < |bytes|
        invariant 0 <= i <= |bytes|
        invariant buffer[writerIndex..writerIndex + i] == bytes[..i]
        invariant forall k :: 0 <= k < writerIndex ==> buffer[k] == old(buffer[k])
      {
        buffer[writerIndex + i] := bytes[i];
        assert buffer[writerIndex..writerIndex + i + 1] == buffer[writerIndex..writerIndex + i] + [bytes[i]];
        i := i + 1;
      }
    }

    method Append(bytes: seq<byte>, v: AppendVariant)
      requires Valid()
      modifies this, buffer
      ensures Valid() && Value() == BufferLayout.Append(old(Value()), bytes, v)
      ensures v.AppendKeepsIndex? ==> writerIndex + |bytes| <= buffer.Length && buffer[writerIndex..writerIndex + |bytes|] == bytes
      ensures buffer == old(buffer) || fresh(buffer)
    {
      EnsureWritableBytes(|bytes|);
      CopyIn(bytes);
      if v.AppendAdvances? {
        Advance(|bytes|);
      }
    }

    /** The bytes just behind the readable ones become readable. */
    method Advance(len: nat)
      requires Valid() && len <= Value().Writable()
      modifies this`writerIndex
      ensures Valid() && Value() == old(Value()).(data := old(Contents()) + buffer[old(writerIndex)..old(writerIndex) + len])
      ensures writerIndex == old(writerIndex) + len
    {
      ghost var before := Contents();
      writerIndex := writerIndex + len;
      assert Contents() == before + buffer[writerIndex - len..writerIndex];
    }

    /** Bytes arrive in the writable area. */
    method ReadIn(bytes: seq<byte>)
      requires Valid() && |bytes| <= Value().Writable()
      modifies this`writerIndex, buffer
      ensures Valid() && Value() == old(Value()).(data := old(Contents()) + bytes)
    {
      CopyIn(bytes);
      Advance(|bytes|);
    }

    /** A scatter read into the writable area and a 64 KiB overflow area on the stack. `input` is what the
        socket delivers, or nothing if the call fails. */
    method ReadFd(input: seq<byte>, fails: bool, v: AppendVariant) returns (n: int)
      requires Valid() && |input| <= ReadCapacity(Value())
      modifies this, buffer
      ensures Valid() && n == if fails then -1 else |input|
      ensures Value() == if fails then old(Value()) else BufferLayout.ReadFd(old(Value()), input, v)
      ensures buffer == old(buffer) || fresh(buffer)
    {
      if fails {
        return -1;
      }
      n := |input|;
      var writable := buffer.Length - writerIndex;
      var first := if n < writable then n else writable;
      ReadIn(input[..first]);
      if n >= writable {
        Append(input[writable..], v);
      } else {
        assert input[..first] == input;
      }
    }
  }
}
