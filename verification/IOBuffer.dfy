/** The byte buffer of a connection: readable bytes between two indices of a vector, with
    reserved space in front. */
module IOBuffer {
  import opened Basics
  import opened Bytes

  const PREPEND_SIZE: nat := 8
  const INITIAL_SIZE: nat := 1024
  const EXTRA_SIZE: nat := 65536

  class IOBuffer {
    /** The vector; `resize` replaces it. */
    var buffer: array<Byte>
    var readIndex: nat
    var writeIndex: nat

    ghost predicate Valid()
      reads this
    {
      PREPEND_SIZE <= buffer.Length && readIndex <= writeIndex <= buffer.Length
    }

    /** What the buffer stands for. */
    function Readable(): seq<Byte>
      requires Valid()
      reads this, buffer
    {
      buffer[readIndex..writeIndex]
    }

    /** The size asked for is ignored by the constructor. */
    constructor (initialSize: nat)
      ensures Valid() && fresh(buffer) && Readable() == [] && WritableSize() == INITIAL_SIZE && PrependSize() == PREPEND_SIZE
    {
      buffer := new Byte[PREPEND_SIZE + INITIAL_SIZE](_ => 0);
      readIndex, writeIndex := PREPEND_SIZE, PREPEND_SIZE;
    }

    function ReadableSize(): nat
      requires Valid()
      reads this
    {
      writeIndex - readIndex
    }

    function WritableSize(): nat
      requires Valid()
      reads this
    {
      buffer.Length - writeIndex
    }

    function PrependSize(): nat
      reads this
    {
      readIndex
    }

    /** std::search for CRLF among the readable bytes; the offset from the first of them. */
    method FindCRLF() returns (crlf: Option<nat>)
      requires Valid()
      ensures crlf == FindCrlf(Readable())
    {
      ghost var s := Readable();
      var i := readIndex;
      while i + 1 < writeIndex && !(buffer[i] == CR && buffer[i + 1] == LF)
        invariant readIndex <= i <= writeIndex
        invariant forall j: nat :: j < i - readIndex ==> !CrlfHere(s, j)
      {
        i := i + 1;
      }
      if i + 1 < writeIndex {
        crlf := Some(i - readIndex);
        assert CrlfHere(s, i - readIndex);
      } else {
        crlf := None;
        assert forall j: nat :: !CrlfHere(s, j);
      }
    }

    method RetrieveAll()
      requires Valid()
      modifies this`readIndex, this`writeIndex
      ensures Valid() && Readable() == [] && PrependSize() == PREPEND_SIZE
    {
      readIndex, writeIndex := PREPEND_SIZE, PREPEND_SIZE;
    }

    method Retrieve(len: nat)
      requires Valid()
      modifies this`readIndex, this`writeIndex
      ensures Valid()
      ensures Readable() == if len <= |old(Readable())| then old(Readable())[len..] else []
    {
      if len < ReadableSize() {
        readIndex := readIndex + len;
      } else {
        RetrieveAll();
      }
    }

    /** `end` is an offset from the first readable byte. */
    method RetrieveUntil(end: nat)
      requires Valid() && end <= ReadableSize()
      modifies this`readIndex, this`writeIndex
      ensures Valid() && Readable() == old(Readable())[end..]
    {
      Retrieve(end);
    }

    method RetrieveAsString(len: nat) returns (result: seq<Byte>)
      requires Valid() && len <= ReadableSize()
      modifies this`readIndex, this`writeIndex
      ensures Valid() && result == old(Readable())[..len] && Readable() == old(Readable())[len..]
    {
      result := Readable()[..len];
      Retrieve(len);
    }

    method RetrieveAllAsString() returns (result: seq<Byte>)
      requires Valid()
      modifies this`readIndex, this`writeIndex
      ensures Valid() && result == old(Readable()) && Readable() == []
    {
      result := RetrieveAsString(ReadableSize());
    }

    /** vector::resize to a larger size. */
    method Resize(size: nat)
      requires Valid() && buffer.Length <= size
      modifies this`buffer
      ensures Valid() && buffer.Length == size && fresh(buffer) && Readable() == old(Readable())
    {
      var larger := new Byte[size](i requires 0 <= i < size reads this, buffer => if i < buffer.Length then buffer[i] else 0);
      assert larger[readIndex..writeIndex] == buffer[readIndex..writeIndex];
      buffer := larger;
    }

    /** Makes room for `len` more bytes. Called only when there is too little: that is why
        compaction moves the bytes strictly forward and the copy loop never reads a byte
        it has overwritten. */
    method MakeSpace(len: nat)
      requires Valid() && WritableSize() < len
      modifies this, buffer
      ensures Valid() && (buffer == old(buffer) || fresh(buffer))
      ensures Readable() == old(Readable()) && WritableSize() >= len
      ensures old(WritableSize() + PrependSize()) >= len + PREPEND_SIZE ==> buffer == old(buffer) && old(readIndex) > PREPEND_SIZE
      ensures readIndex == if old(WritableSize() + PrependSize()) >= len + PREPEND_SIZE then PREPEND_SIZE else old(readIndex)
    {
      if WritableSize() + PrependSize() < len + PREPEND_SIZE {
        Resize(writeIndex + len);
      } else {
        Compact();
      }
    }

    /** std::copy of the readable bytes to the front, first to last. */
    method Compact()
      requires Valid() && readIndex > PREPEND_SIZE
      modifies this`readIndex, this`writeIndex, buffer
      ensures Valid() && readIndex == PREPEND_SIZE && Readable() == old(Readable())
    {
      var readable := ReadableSize();
      ghost var s := Readable();
      for k := 0 to readable
        invariant forall i :: 0 <= i < k ==> buffer[PREPEND_SIZE + i] == s[i]
        invariant forall i :: k <= i < readable ==> buffer[readIndex + i] == s[i]
        modifies buffer
      {
        buffer[PREPEND_SIZE + k] := buffer[readIndex + k];
      }
      readIndex := PREPEND_SIZE;
      writeIndex := readIndex + readable;
      assert forall i :: 0 <= i < readable ==> Readable()[i] == s[i];
    }

    method EnsureWritable(len: nat)
      requires Valid()
      modifies this, buffer
      ensures Valid() && (buffer == old(buffer) || fresh(buffer))
      ensures Readable() == old(Readable()) && WritableSize() >= len
      ensures readIndex == old(readIndex) || readIndex == PREPEND_SIZE
    {
      if WritableSize() < len {
        MakeSpace(len);
      }
    }

    method Append(data: seq<Byte>)
      requires Valid()
      modifies this, buffer
      ensures Valid() && (buffer == old(buffer) || fresh(buffer))
      ensures Readable() == old(Readable()) + data
      ensures old(WritableSize()) >= |data| ==> WritableSize() == old(WritableSize()) - |data| && readIndex == old(readIndex)
    {
      if WritableSize() < |data| {
        MakeSpace(|data|);
      }
      Copy(data);
    }

    /** std::copy to the writable bytes. */
    method Copy(data: seq<Byte>)
      requires Valid() && |data| <= WritableSize()
      modifies this`writeIndex, buffer
      ensures Valid() && Readable() == old(Readable()) + data && writeIndex == old(writeIndex) + |data|
    {
      forall i | 0 <= i < |data| {
        buffer[writeIndex + i] := data[i];
      }
      assert buffer[readIndex..writeIndex] == old(buffer[readIndex..writeIndex]);
      writeIndex := writeIndex + |data|;
    }

    /** Puts bytes in front of the readable ones; the caller sees to the space. */
    method Prepend(data: seq<Byte>)
      requires Valid() && |data| <= PrependSize()
      modifies this`readIndex, buffer
      ensures Valid() && Readable() == data + old(Readable())
    {
      ghost var s := Readable();
      readIndex := readIndex - |data|;
      forall i | 0 <= i < |data| {
        buffer[readIndex + i] := data[i];
      }
      assert buffer[readIndex + |data|..writeIndex] == s;
    }

    method Swap(rhs: IOBuffer)
      requires Valid() && rhs.Valid()
      modifies this, rhs
      ensures Valid() && rhs.Valid() && buffer == old(rhs.buffer) && rhs.buffer == old(buffer)
      ensures readIndex == old(rhs.readIndex) && writeIndex == old(rhs.writeIndex)
      ensures rhs.readIndex == old(readIndex) && rhs.writeIndex == old(writeIndex)
    {
      buffer, rhs.buffer := rhs.buffer, buffer;
      readIndex, rhs.readIndex := rhs.readIndex, readIndex;
      writeIndex, rhs.writeIndex := rhs.writeIndex, writeIndex;
    }

    /** A new vector of the size needed: the contents stay, and `reserve` more bytes fit. */
    method Shrink(reserve: nat)
      requires Valid()
      modifies this
      ensures Valid() && fresh(buffer) && Readable() == old(Readable())
      ensures WritableSize() >= reserve && PrependSize() == PREPEND_SIZE
    {
      var other := new IOBuffer(INITIAL_SIZE);
      other.EnsureWritable(ReadableSize() + reserve);
      other.Append(Readable());
      Swap(other);
    }

    /** One `readv` into the writable space and a stack buffer: it fails, or delivers some
        bytes, at most as many as both can take. */
    method ReadFd(delivered: Option<seq<Byte>>) returns (n: int)
      requires Valid()
      requires delivered.Some? ==> |delivered.value| <= WritableSize() + (if WritableSize() < EXTRA_SIZE then EXTRA_SIZE else 0)
      modifies this, buffer
      ensures Valid() && (buffer == old(buffer) || fresh(buffer))
      ensures Readable() == old(Readable()) + (if delivered.Some? then delivered.value else [])
      ensures n == if delivered.Some? then |delivered.value| else -1
    {
      var writable := WritableSize();
      if delivered.None? {
        n := -1;
      } else {
        var bytes := delivered.value;
        n := |bytes|;
        ghost var s := Readable();
        forall i | 0 <= i < |bytes| && i < writable {
          buffer[writeIndex + i] := bytes[i];
        }
        assert buffer[readIndex..writeIndex] == s;
        if n <= writable {
          writeIndex := writeIndex + n;
        } else {
          writeIndex := buffer.Length;
          assert Readable() == s + bytes[..writable];
          Append(bytes[writable..]);
        }
      }
    }
  }
}
