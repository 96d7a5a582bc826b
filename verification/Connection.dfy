/** The output side of a connection: what cannot be written at once waits in the output
    buffer, and the write event is enabled exactly while something waits. When everything
    is written the reply-complete callback runs, which may send again. */
module Connection {
  import opened Basics
  import opened Bytes
  import opened IOBuffer

  /** A call to `Send`: `answer` is what `write` answers if it is called, negative for an
      error; `replies` are the calls that the reply-complete callback makes if it runs. */
  datatype Call = Call(data: seq<Byte>, answer: int, replies: seq<Call>)

  /** The bytes taken by a `write` of `len` bytes. */
  function Taken(answer: int, len: nat): (r: nat)
    ensures r <= len && (r == len <==> answer >= len || len == 0)
  {
    if answer < 0 then 0 else Min(answer, len)
  }

  // ------------------------------------------------------------------ what is sent and what is written

  /** Everything passed to `Send`, and everything the socket took. */
  datatype Out = Out(sent: seq<Byte>, wire: seq<Byte>)

  predicate Waiting(o: Out) {
    |o.wire| < |o.sent|
  }

  function AfterSend(o: Out, call: Call): Out
    decreases call, 0
  {
    var sent := o.sent + call.data;
    if Waiting(o) then Out(sent, o.wire)
    else if call.answer >= |call.data| then AfterCalls(Out(sent, o.wire + call.data), call.replies, |call.replies|)
    else Out(sent, o.wire + call.data[..Taken(call.answer, |call.data|)])
  }

  /** The first `n` calls of the callback. */
  function AfterCalls(o: Out, calls: seq<Call>, n: nat): Out
    requires n <= |calls|
    decreases calls, n
  {
    if n == 0 then o else AfterSend(AfterCalls(o, calls, n - 1), calls[n - 1])
  }

  /** A write event, with the calls that the callback makes if nothing is left to write. */
  function AfterWritable(o: Out, answer: int, replies: seq<Call>): Out
    requires o.wire <= o.sent
  {
    if !Waiting(o) || answer <= 0 then o
    else if |o.wire| + answer >= |o.sent| then AfterCalls(Out(o.sent, o.sent), replies, |replies|)
    else Out(o.sent, o.sent[..|o.wire| + answer])
  }

  /** What is written is always the beginning of what was sent, however the callbacks nest. */
  lemma {:induction false} SendInOrder(o: Out, call: Call)
    requires o.wire <= o.sent
    ensures var o' := AfterSend(o, call); o'.wire <= o'.sent && o.sent + call.data <= o'.sent && o.wire <= o'.wire
    decreases call, 0
  {
    if !Waiting(o) && call.answer >= |call.data| {
      assert o.wire == o.sent;
      CallsInOrder(Out(o.sent + call.data, o.wire + call.data), call.replies, |call.replies|);
    }
  }

  lemma {:induction false} CallsInOrder(o: Out, calls: seq<Call>, n: nat)
    requires o.wire <= o.sent && n <= |calls|
    ensures var o' := AfterCalls(o, calls, n); o'.wire <= o'.sent && o.sent <= o'.sent && o.wire <= o'.wire
    decreases calls, n
  {
    if n > 0 {
      CallsInOrder(o, calls, n - 1);
      SendInOrder(AfterCalls(o, calls, n - 1), calls[n - 1]);
    }
  }

  lemma WritableInOrder(o: Out, answer: int, replies: seq<Call>)
    requires o.wire <= o.sent
    ensures var o' := AfterWritable(o, answer, replies); o'.wire <= o'.sent && o.sent <= o'.sent && o.wire <= o'.wire
  {
    if Waiting(o) && answer > 0 && |o.wire| + answer >= |o.sent| {
      CallsInOrder(Out(o.sent, o.sent), replies, |replies|);
    }
  }

  /** What waits after `wrote` bytes of `data` were taken, if anything could be. */
  lemma TakenFrom(o: Out, data: seq<Byte>, wrote: nat)
    requires o.wire <= o.sent && wrote <= |data| && (wrote > 0 ==> !Waiting(o))
    ensures var o' := Out(o.sent + data, o.wire + data[..wrote]);
            o'.wire <= o'.sent && o'.sent[|o'.wire|..] == o.sent[|o.wire|..] + data[wrote..]
    ensures o.wire + data[..0] == o.wire
  {
  }

  // ------------------------------------------------------------------ the socket

  /** The peer's side of `write`, which keeps its own log. */
  class Socket {
    /** Everything the socket took. */
    var log: seq<Byte>
    /** The data of each `write` offered to it. */
    var offers: seq<seq<Byte>>

    constructor ()
      ensures log == [] && offers == []
    {
      log, offers := [], [];
    }

    /** `answer` is what the system decides: an error, or how much it takes at most. */
    method Write(data: seq<Byte>, answer: int) returns (n: int)
      modifies this
      ensures n == if answer < 0 then -1 else Min(answer, |data|)
      ensures log == old(log) + data[..if n < 0 then 0 else n] && offers == old(offers) + [data]
    {
      n := if answer < 0 then -1 else Min(answer, |data|);
      log := log + data[..if n < 0 then 0 else n];
      offers := offers + [data];
    }
  }

  // ------------------------------------------------------------------ the connection

  class Connection {
    const outputBuffer: IOBuffer
    const socket: Socket
    /** EPOLLOUT is among the events. */
    var writing: bool
    /** The write side of the socket was shut down. */
    var shut: bool

    /** Everything passed to `Send`; and how often the reply-complete callback has run. */
    ghost var sent: seq<Byte>
    ghost var completions: nat

    ghost predicate Valid()
      reads this, socket, outputBuffer, outputBuffer.buffer
    {
      && outputBuffer.Valid()
      && (writing <==> outputBuffer.Readable() != [])
      && socket.log <= sent && outputBuffer.Readable() == sent[|socket.log|..]
    }

    /** What was sent, and what the socket took of it by its own account. */
    ghost function Output(): Out
      reads this, socket
    {
      Out(sent, socket.log)
    }

    constructor ()
      ensures Valid() && fresh(socket) && fresh(outputBuffer) && fresh(outputBuffer.buffer) && Output() == Out([], []) && !shut
    {
      outputBuffer := new IOBuffer(INITIAL_SIZE);
      socket := new Socket();
      writing, shut := false, false;
      sent, completions := [], 0;
    }

    /** With nothing waiting all the data is offered to the socket; what it does not take
        waits, and if it takes all, and only then, the callback runs. Otherwise the data
        waits behind what does already. */
    method Send(call: Call)
      requires Valid()
      modifies this, socket, outputBuffer, outputBuffer.buffer
      ensures Valid() && (outputBuffer.buffer == old(outputBuffer.buffer) || fresh(outputBuffer.buffer))
      ensures Output() == AfterSend(old(Output()), call) && shut == old(shut)
      ensures old(writing) ==> socket.offers == old(socket.offers)
      ensures !old(writing) ==> old(socket.offers) + [call.data] <= socket.offers
      ensures completions >= old(completions) && (completions > old(completions) <==> !old(writing) && call.answer >= |call.data|)
      decreases call, 0
    {
      var data, wrote := call.data, 0;
      hide AfterCalls, Min;
      if !writing && outputBuffer.ReadableSize() == 0 {
        ghost var o := Output();
        var n := socket.Write(data, call.answer);
        wrote := if n >= 0 then n else 0;
        TakenIs(call.answer, |data|);
        TakenFrom(o, data, wrote);
        sent := sent + data;
        if n == |data| {
          assert data[..wrote] == data;
          ReplyComplete(call.replies);
          return;
        }
      } else {
        TakenFrom(Output(), data, 0);
        sent := sent + data;
      }
      if wrote < |data| {
        outputBuffer.Append(data[wrote..]);
        if !writing {
          writing := true;
        }
      }
    }

    /** The callback, if there is one, and all the calls it makes. */
    method ReplyComplete(replies: seq<Call>)
      requires Valid()
      modifies this, socket, outputBuffer, outputBuffer.buffer
      ensures Valid() && (outputBuffer.buffer == old(outputBuffer.buffer) || fresh(outputBuffer.buffer))
      ensures Output() == AfterCalls(old(Output()), replies, |replies|) && shut == old(shut)
      ensures completions > old(completions) && old(socket.offers) <= socket.offers
      decreases replies, |replies|
    {
      completions := completions + 1;
      for i := 0 to |replies|
        invariant Valid() && (outputBuffer.buffer == old(outputBuffer.buffer) || fresh(outputBuffer.buffer))
        invariant Output() == AfterCalls(old(Output()), replies, i) && shut == old(shut)
        invariant completions > old(completions) && old(socket.offers) <= socket.offers
      {
        Send(replies[i]);
      }
    }

    method Shutdown()
      requires Valid()
      modifies this`shut
      ensures Valid() && Output() == old(Output())
      ensures shut == (old(shut) || socket.log == sent)
    {
      assert outputBuffer.Readable() == [] ==> socket.log == sent;
      if !writing {
        shut := true;
      }
    }

    /** The socket is writable: all that waits is offered to it, if anything does; when
        nothing is left the callback runs. */
    method HandleWrite(answer: int, replies: seq<Call>)
      requires Valid()
      modifies this, socket, outputBuffer, outputBuffer.buffer
      ensures Valid() && (outputBuffer.buffer == old(outputBuffer.buffer) || fresh(outputBuffer.buffer))
      ensures Output() == AfterWritable(old(Output()), answer, replies) && shut == old(shut)
      ensures !old(writing) ==> socket.offers == old(socket.offers)
      ensures old(writing) ==> old(socket.offers) + [old(outputBuffer.Readable())] <= socket.offers
      ensures completions >= old(completions) && (completions > old(completions) <==> old(writing) && answer >= |old(outputBuffer.Readable())|)
    {
      ghost var o, waiting := Output(), outputBuffer.Readable();
      hide AfterSend, AfterCalls, Min;
      if writing {
        var n := socket.Write(outputBuffer.Readable(), answer);
        TakenIs(answer, |waiting|);
        if n > 0 {
          outputBuffer.Retrieve(n);
          assert waiting == waiting[..n] + waiting[n..] && o.sent == o.wire + waiting;
          if outputBuffer.ReadableSize() == 0 {
            assert Output() == Out(o.sent, o.sent);
            writing := false;
            ReplyComplete(replies);
          }
        }
      }
    }
  }

  /** What the socket answers is what AfterSend and AfterWritable count. */
  lemma TakenIs(answer: int, len: nat)
    ensures Taken(answer, len) == if answer < 0 then 0 else Min(answer, len)
    ensures 0 <= answer ==> (Min(answer, len) == len <==> answer >= len) && Min(answer, len) <= len && (Min(answer, len) > 0 <==> answer > 0 && len > 0)
  {
  }

  // ------------------------------------------------------------------ any sequence of events

  datatype Event = Send(call: Call) | Writable(answer: int, replies: seq<Call>) | Shutdown

  function Step(o: Out, e: Event): (o': Out)
    requires o.wire <= o.sent
    ensures o'.wire <= o'.sent
  {
    match e
    case Send(call) => SendInOrder(o, call); AfterSend(o, call)
    case Writable(answer, replies) => WritableInOrder(o, answer, replies); AfterWritable(o, answer, replies)
    case Shutdown => o
  }

  function After(events: seq<Event>): (o: Out)
    ensures o.wire <= o.sent
  {
    if events == [] then Out([], []) else Step(After(events[..|events| - 1]), events[|events| - 1])
  }

  function Told(e: Event): seq<Byte> {
    if e.Send? then e.call.data else []
  }

  function AllSent(events: seq<Event>): seq<Byte> {
    if events == [] then [] else AllSent(events[..|events| - 1]) + Told(events[|events| - 1])
  }

  predicate Silent(e: Event) {
    match e
    case Send(call) => call.replies == []
    case Writable(_, replies) => replies == []
    case Shutdown => true
  }

  lemma StepAsTold(o: Out, e: Event)
    requires o.wire <= o.sent && Silent(e)
    ensures Step(o, e).sent == o.sent + Told(e)
  {
    assert o.sent + [] == o.sent;
    match e
    case Send(call) => NoReplies(Out(o.sent + call.data, o.wire + call.data));
    case Writable(_, _) => NoReplies(Out(o.sent, o.sent));
    case Shutdown =>
  }

  lemma NoReplies(o: Out)
    ensures AfterCalls(o, [], 0) == o
  {
  }

  /** Without a callback that sends, what is sent is what the events say. */
  lemma {:induction false} SentAsTold(events: seq<Event>)
    requires forall e <- events :: Silent(e)
    ensures After(events).sent == AllSent(events)
  {
    hide Step, Told, Silent;
    if events != [] {
      var before := events[..|events| - 1];
      assert forall e <- before :: e in events;
      SentAsTold(before);
      assert events[|events| - 1] in events;
      StepAsTold(After(before), events[|events| - 1]);
    }
  }

  /** For all sequences of sends, write events and shutdowns, under short and failed writes
      and callbacks that send: what was written followed by what waits is what was sent,
      in order; the write event is enabled exactly while something waits. */
  method Run(events: seq<Event>) returns (c: Connection)
    ensures fresh(c) && c.Valid() && c.Output() == After(events)
    ensures c.socket.log + c.outputBuffer.Readable() == After(events).sent
    ensures c.writing <==> c.socket.log != After(events).sent
  {
    c := new Connection();
    for i := 0 to |events|
      invariant fresh(c) && fresh(c.socket) && fresh(c.outputBuffer) && fresh(c.outputBuffer.buffer) && c.Valid()
      invariant c.Output() == After(events[..i])
    {
      assert events[..i + 1][..i] == events[..i];
      match events[i]
      case Send(call) => c.Send(call);
      case Writable(answer, replies) => c.HandleWrite(answer, replies);
      case Shutdown => c.Shutdown();
    }
    assert events[..|events|] == events;
  }
}
