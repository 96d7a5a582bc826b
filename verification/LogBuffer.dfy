/** The fixed-size buffer of logstream.h. */
module LogBuffer {
  import opened Bytes

  type Message = seq<Byte>

  const SMALL_BUFFER_SIZE: nat := 1024
  const LARGE_BUFFER_SIZE: nat := 1024 * 1000

  /** The bytes of consecutive messages. */
  function Flat(ms: seq<Message>): seq<Byte> {
    if ms == [] then [] else Flat(ms[..|ms| - 1]) + ms[|ms| - 1]
  }

  lemma {:induction false} FlatConcat(ms: seq<Message>, ns: seq<Message>)
    ensures Flat(ms + ns) == Flat(ms) + Flat(ns)
  {
    if ns == [] {
      assert ms + ns == ms;
    } else {
      var n := |ns| - 1;
      assert (ms + ns)[..|ms| + n] == ms + ns[..n];
      FlatConcat(ms, ns[..n]);
    }
  }

  /** The characters `data_` are part of the object itself: two buffers never share them. */
  class Buffer {
    const size: nat
    var data: seq<Byte>
    /** How far the `cur_` pointer is into `data`. */
    var cur: nat
    /** What was appended since the last reset. */
    ghost var messages: seq<Message>

    ghost predicate Valid()
      reads this
    {
      cur <= |data| == size && data[..cur] == Flat(messages)
    }

    constructor (size: nat)
      ensures Valid() && this.size == size && messages == []
    {
      this.size := size;
      data := seq(size, _ => 0);
      cur, messages := 0, [];
    }

    function Available(): (r: nat)
      requires Valid()
      reads this
    {
      size - cur
    }

    /** Whole or not at all; a message that would fill the buffer exactly is refused. */
    method Append(buf: Message)
      requires Valid()
      modifies this
      ensures Valid()
      ensures messages == old(messages) + (if |buf| < old(Available()) then [buf] else [])
      ensures cur == old(cur) + (if |buf| < old(Available()) then |buf| else 0)
    {
      if Available() > |buf| {
        ghost var contents := data[..cur];
        data := data[..cur] + buf + data[cur + |buf|..];
        assert data[..cur] == contents && data[cur..cur + |buf|] == buf;
        AppendComplete(|buf|);
      }
    }

    /** The `len` bytes that were put behind the current end now belong to the contents. */
    method AppendComplete(len: nat)
      requires cur + len <= |data| == size && data[..cur] == Flat(messages)
      modifies this`cur, this`messages
      ensures Valid() && cur == old(cur) + len && messages == old(messages) + [data[old(cur)..cur]]
    {
      ghost var buf := data[cur..cur + len];
      assert data[..cur + len] == data[..cur] + buf;
      assert (messages + [buf])[..|messages|] == messages;
      cur, messages := cur + len, messages + [buf];
    }

    method Reset()
      requires Valid()
      modifies this
      ensures Valid() && messages == [] && cur == 0
    {
      cur, messages := 0, [];
    }

    function GetData(): (r: seq<Byte>)
      requires Valid()
      reads this
      ensures r == Flat(messages)
    {
      data[..cur]
    }
  }
}
