/** The asynchronous logger: front-end threads fill buffers under a mutex, the back-end
    thread exchanges them for empty ones and writes them to the file. Each method is one
    stretch that runs without interference: a critical section, or back-end work on
    buffers that only the back-end has. */
module AsyncLogger {
  import opened Bytes
  import opened LogBuffer

  /** Where the back-end thread is in its loop. */
  datatype Phase = Waiting | Trimming | Writing(i: nat) | Refilling

  /** The messages in `bs`, in order. */
  ghost function Messages(bs: seq<Buffer>): seq<Message>
    reads bs
  {
    if bs == [] then [] else Messages(bs[..|bs| - 1]) + bs[|bs| - 1].messages
  }

  lemma MessagesLast(bs: seq<Buffer>, b: Buffer)
    ensures Messages(bs + [b]) == Messages(bs) + b.messages
  {
    assert (bs + [b])[..|bs|] == bs;
  }

  lemma {:induction false} MessagesConcat(bs: seq<Buffer>, cs: seq<Buffer>)
    ensures Messages(bs + cs) == Messages(bs) + Messages(cs)
  {
    if cs == [] {
      assert bs + cs == bs;
    } else {
      var n := |cs| - 1;
      assert (bs + cs)[..|bs| + n] == bs + cs[..n];
      MessagesConcat(bs, cs[..n]);
    }
  }

  ghost predicate NoneTwice(bs: seq<Buffer>) {
    forall i, j :: 0 <= i < j < |bs| ==> bs[i] != bs[j]
  }

  ghost predicate Sound(b: Buffer)
    reads b
  {
    b.Valid() && b.size == LARGE_BUFFER_SIZE
  }

  ghost predicate AllSound(bs: seq<Buffer>)
    reads bs
  {
    forall i :: 0 <= i < |bs| ==> Sound(bs[i])
  }

  /** An unused buffer is empty. */
  ghost predicate Spare(b: Buffer?)
    reads b
  {
    b != null ==> Sound(b) && b.messages == []
  }

  /** `a` is what remains of `b` when some elements are left out. */
  ghost predicate Subsequence<T>(a: seq<T>, b: seq<T>) {
    a == [] || (b != [] && ((a[0] == b[0] && Subsequence(a[1..], b[1..])) || Subsequence(a, b[1..])))
  }

  lemma {:induction false} SubsequenceReflexive<T>(a: seq<T>)
    ensures Subsequence(a, a)
  {
    if a != [] {
      SubsequenceReflexive(a[1..]);
    }
  }

  lemma {:induction false} SubsequenceTransitive<T>(a: seq<T>, b: seq<T>, c: seq<T>)
    requires Subsequence(a, b) && Subsequence(b, c)
    ensures Subsequence(a, c)
    decreases |c|
  {
    if a != [] {
      if Subsequence(b, c[1..]) {
        SubsequenceTransitive(a, b, c[1..]);
      } else if Subsequence(a, b[1..]) {
        SubsequenceTransitive(a, b[1..], c[1..]);
      } else {
        SubsequenceTransitive(a[1..], b[1..], c[1..]);
      }
    }
  }

  lemma {:induction false} SubsequenceAppend<T>(a: seq<T>, b: seq<T>, c: seq<T>)
    requires Subsequence(a, b)
    ensures Subsequence(a + c, b + c)
    decreases |b|
  {
    if b == [] {
      SubsequenceReflexive(a + c);
    } else {
      assert (b + c)[1..] == b[1..] + c;
      if a == [] || Subsequence(a, b[1..]) {
        SubsequenceAppend(a, b[1..], c);
      } else {
        assert (a + c)[1..] == a[1..] + c;
        SubsequenceAppend(a[1..], b[1..], c);
      }
    }
  }

  /** Leaving out a middle part. */
  lemma {:induction false} SubsequenceCut<T>(a: seq<T>, b: seq<T>, c: seq<T>)
    ensures Subsequence(a + c, a + b + c)
  {
    if a != [] {
      SubsequenceCut(a[1..], b, c);
      assert (a + c)[1..] == a[1..] + c;
      assert (a + b + c)[1..] == a[1..] + b + c;
    } else if b != [] {
      SubsequenceCut(a, b[1..], c);
      assert (a + b + c)[1..] == a + b[1..] + c;
    } else {
      assert a + c == c && a + b + c == c;
      SubsequenceReflexive(c);
    }
  }

  ghost predicate Outside(b: Buffer, bs: seq<Buffer>, cs: seq<Buffer>) {
    (forall i :: 0 <= i < |bs| ==> bs[i] != b) && (forall i :: 0 <= i < |cs| ==> cs[i] != b)
  }

  ghost predicate Disjoint(bs: seq<Buffer>, cs: seq<Buffer>) {
    forall i, j :: 0 <= i < |bs| && 0 <= j < |cs| ==> bs[i] != cs[j]
  }

  /** No buffer is in two places. */
  ghost predicate Apart(current: Buffer, next: Buffer?, back1: Buffer?, back2: Buffer?, toWrite: seq<Buffer>, buffers: seq<Buffer>) {
    && NoneTwice(toWrite) && NoneTwice(buffers) && Disjoint(toWrite, buffers)
    && Outside(current, toWrite, buffers)
    && (next != null ==> next != current && Outside(next, toWrite, buffers))
    && (back1 != null ==> back1 != current && back1 != next && Outside(back1, toWrite, buffers))
    && (back2 != null ==> back2 != current && back2 != next && back2 != back1 && Outside(back2, toWrite, buffers))
  }

  lemma RotatedApart(current: Buffer, next: Buffer?, back1: Buffer?, back2: Buffer?, toWrite: seq<Buffer>, buffers: seq<Buffer>, newest: Buffer)
    requires Apart(current, next, back1, back2, toWrite, buffers)
    requires newest == next
    ensures Apart(newest, null, back1, back2, toWrite, buffers + [current])
  {
  }

  /** The current buffer joins those queued, the whole queue goes to the back end, and a
      spare becomes the current one. */
  lemma ExchangedApart(current: Buffer, next: Buffer?, back1: Buffer, back2: Buffer, buffers: seq<Buffer>)
    requires Apart(current, next, back1, back2, [], buffers)
    ensures Apart(back1, if next == null then back2 else next, null, if next == null then null else back2, buffers + [current], [])
  {
  }

  lemma FewerApart(current: Buffer, next: Buffer?, back1: Buffer?, back2: Buffer?, toWrite: seq<Buffer>, buffers: seq<Buffer>, n: nat)
    requires Apart(current, next, back1, back2, toWrite, buffers) && n <= |toWrite|
    ensures Apart(current, next, back1, back2, toWrite[..n], buffers)
  {
  }

  /** The last buffer written becomes a spare again. */
  lemma RecoveredApart(current: Buffer, next: Buffer?, back1: Buffer?, back2: Buffer?, toWrite: seq<Buffer>, buffers: seq<Buffer>)
    requires Apart(current, next, back1, back2, toWrite, buffers) && toWrite != []
    ensures back1 == null ==> Apart(current, next, toWrite[|toWrite| - 1], back2, toWrite[..|toWrite| - 1], buffers)
    ensures back2 == null ==> Apart(current, next, back1, toWrite[|toWrite| - 1], toWrite[..|toWrite| - 1], buffers)
  {
  }

  lemma SoundFewer(bs: seq<Buffer>, n: nat)
    requires AllSound(bs) && n <= |bs|
    ensures AllSound(bs[..n])
  {
  }

  lemma SoundPlus(bs: seq<Buffer>, b: Buffer)
    requires AllSound(bs) && Sound(b)
    ensures AllSound(bs + [b])
  {
  }

  class Logger {
    var current: Buffer
    var next: Buffer?
    var buffers: seq<Buffer>
    // the back-end thread's own
    var back1: Buffer?
    var back2: Buffer?
    var toWrite: seq<Buffer>
    var phase: Phase
    /** The file. */
    var output: seq<Byte>

    /** What was accepted, what is in the file, and whether a round was cut short. */
    ghost var accepted: seq<Message>
    ghost var written: seq<Message>
    ghost var dropped: bool
    /** How many messages had been accepted when the back end last took over the buffers. */
    ghost var taken: nat
    /** Every buffer the logger ever had. */
    ghost var repr: set<Buffer>

    /** The full buffers not yet in the file, oldest first. */
    ghost function Queued(): seq<Buffer>
      reads this
    {
      InFlight() + buffers
    }

    /** The buffers the back end still has to write. */
    ghost function InFlight(): seq<Buffer>
      reads this
    {
      match phase
      case Waiting => []
      case Trimming => toWrite
      case Writing(i) => if i <= |toWrite| then toWrite[i..] else []
      case Refilling => []
    }

    /** The file, then the buffers in flight. */
    ghost function Flight(): seq<Message>
      reads this, InFlight()
    {
      written + Messages(InFlight())
    }

    ghost function Pending(): seq<Buffer>
      reads this
    {
      Queued() + [current]
    }

    /** The file, then the buffers in flight, then those queued, then the current one. */
    ghost function Stream(): seq<Message>
      reads this, Pending()
    {
      written + Messages(Pending())
    }

    ghost predicate Valid()
      reads this, repr
    {
      && current in repr && Owned(next) && Owned(back1) && Owned(back2)
      && (forall i :: 0 <= i < |toWrite| ==> toWrite[i] in repr)
      && (forall i :: 0 <= i < |buffers| ==> buffers[i] in repr)
      && Apart(current, next, back1, back2, toWrite, buffers) && Sound(current) && AllSound(toWrite) && AllSound(buffers)
      && Spare(next) && Spare(back1) && Spare(back2)
      && (next == null ==> |buffers| >= 1)
      && (match phase
          case Waiting => back1 != null && back2 != null && toWrite == []
          case Trimming => Fillable()
          case Writing(i) => Fillable() && i <= |toWrite|
          case Refilling => Fillable())
      && output == Flat(written)
    }

    ghost predicate Owned(b: Buffer?)
      reads this
    {
      b != null ==> b in repr
    }

    /** Enough buffers come back to replace the spares given away. */
    ghost predicate Fillable()
      reads this
    {
      |toWrite| >= (if back1 == null then 1 else 0) + (if back2 == null then 1 else 0)
    }

    /** Nothing is lost or reordered until a round is cut short, and never reordered. */
    ghost predicate Faithful()
      reads this, Pending()
    {
      (!dropped ==> Stream() == accepted) && Subsequence(Stream(), accepted)
    }

    /** Unless a round was cut short, what is in the file or in flight is exactly what had
        been accepted when the back end last took over the buffers. */
    ghost predicate Delivers()
      reads this, InFlight()
    {
      !dropped ==> taken <= |accepted| && Flight() == accepted[..taken]
    }

    /** All four buffers are new. */
    ghost predicate Started()
      reads this, repr
    {
      && phase == Waiting && buffers == toWrite == [] && output == [] && accepted == written == [] && !dropped && taken == 0
      && next != null && back1 != null && back2 != null && repr == {current, next, back1, back2}
      && Sound(current) && current.messages == [] && Spare(next) && Spare(back1) && Spare(back2)
      && current != next && current != back1 && current != back2 && next != back1 && next != back2 && back1 != back2
    }

    /** The object with the back-end thread about to enter its loop. */
    constructor ()
      ensures Started() && fresh(repr)
    {
      var a := new Buffer(LARGE_BUFFER_SIZE);
      var b := new Buffer(LARGE_BUFFER_SIZE);
      var c := new Buffer(LARGE_BUFFER_SIZE);
      var d := new Buffer(LARGE_BUFFER_SIZE);
      current, next, back1, back2 := a, b, c, d;
      repr := {a, b, c, d};
      buffers, toWrite, phase := [], [], Waiting;
      output, accepted, written, dropped, taken := [], [], [], false, 0;
    }

    lemma StartsValid()
      requires Started()
      ensures Valid() && Faithful() && Delivers() && Stream() == []
    {
      assert Queued() == [] && Messages(Queued()) == [];
      MessagesLast(Queued(), current);
      SubsequenceReflexive<Message>([]);
    }

    /** A new buffer, when the back end has not yet given one back. */
    method Supply()
      requires Valid() && next == null
      modifies this`next, this`repr
      ensures Valid() && next != null && fresh(next) && repr == old(repr) + {next} && Stream() == old(Stream()) && Flight() == old(Flight())
    {
      hide Messages, Flat, AllSound, NoneTwice, Disjoint;
      next := new Buffer(LARGE_BUFFER_SIZE);
      repr := repr + {next};
    }

    /** The current buffer is queued; the next takes its place. */
    method Rotate()
      requires Valid() && next != null
      modifies this`current, this`next, this`buffers
      ensures Valid() && Stream() == old(Stream()) && Flight() == old(Flight())
      ensures current == old(next) && current.messages == [] && next == null && buffers == old(buffers) + [old(current)]
    {
      hide Messages, Flat, Apart, AllSound;
      ghost var queued := Queued();
      var was := current;
      SoundPlus(buffers, was);
      RotatedApart(was, next, back1, back2, toWrite, buffers, next);
      buffers, current, next := buffers + [was], next, null;
      assert Queued() == queued + [was];
      MessagesLast(Queued(), current);
    }

    /** GetAvailable of the current buffer. */
    function Room(): (r: nat)
      requires Valid()
      reads this, repr
      ensures r <= LARGE_BUFFER_SIZE && (current.messages == [] ==> r == LARGE_BUFFER_SIZE)
    {
      current.Available()
    }

    /** The current buffer takes a message, if there is room. */
    method Fill(str: Message)
      requires Valid()
      modifies repr
      ensures Valid() && Flight() == old(Flight())
      ensures Stream() == old(Stream()) + (if |str| < old(Room()) then [str] else [])
    {
      hide Messages, Flat, AllSound, NoneTwice;
      MessagesLast(Queued(), current);
      current.Append(str);
      MessagesLast(Queued(), current);
    }

    /** Front end: a message that fits goes into the current buffer; otherwise the buffers
        rotate first. A message no buffer can hold is refused. */
    method Append(str: Message)
      requires Valid() && Faithful() && Delivers()
      modifies this`current, this`next, this`buffers, this`accepted, this`repr, repr
      ensures Valid() && Faithful() && Delivers() && fresh(repr - old(repr))
      ensures accepted == old(accepted) + (if |str| < LARGE_BUFFER_SIZE then [str] else [])
      ensures Stream() == old(Stream()) + (if |str| < LARGE_BUFFER_SIZE then [str] else [])
      ensures old(Room()) > |str| ==> current == old(current) && next == old(next) && buffers == old(buffers)
      ensures old(Room()) <= |str| ==> buffers == old(buffers) + [old(current)] && next == null
    {
      ghost var before, more := Stream(), if |str| < LARGE_BUFFER_SIZE then [str] else [];
      hide Subsequence, Valid, Stream, Flight;
      Accept(more);
      if Room() <= |str| {
        if next == null { Supply(); }
        Rotate();
      }
      Fill(str);
      SubsequenceAppend(before, old(accepted), more);
      Accepts(before, more, old(accepted));
    }

    ghost method Accept(more: seq<Message>)
      requires Valid()
      modifies this`accepted
      ensures accepted == old(accepted) + more && Valid() && Stream() == old(Stream()) && Room() == old(Room()) && Flight() == old(Flight())
    {
      hide Messages, Flat, Apart, AllSound;
      accepted := accepted + more;
    }

    lemma Accepts(before: seq<Message>, more: seq<Message>, was: seq<Message>)
      requires Stream() == before + more && accepted == was + more && (!dropped ==> before == was) && Subsequence(before + more, was + more)
      ensures Faithful()
    {
    }

    /** Back end, under the mutex: take over everything filled so far, and leave empty
        buffers in its place. */
    method Exchange()
      requires Valid() && phase == Waiting
      modifies this`current, this`next, this`buffers, this`back1, this`back2, this`toWrite, this`phase, this`taken
      ensures Valid() && phase == Trimming && Stream() == old(Stream()) && Flight() == old(Stream()) && taken == |accepted|
      ensures toWrite == old(buffers) + [old(current)] && buffers == []
    {
      hide Messages, Flat, Valid, Stream, Flight;
      Note();
      Swap();
      StreamIs();
      assert Messages(buffers + [current]) == [] by {
        MessagesLast([], current);
        NoMessages();
        assert buffers + [current] == [] + [current];
      }
    }

    ghost method Note()
      requires Valid()
      modifies this`taken
      ensures taken == |accepted| && Valid() && Stream() == old(Stream())
    {
      hide Messages, Flat, Apart, AllSound;
      taken := |accepted|;
    }

    /** What the stream is, apart from what is in flight. */
    lemma StreamIs()
      ensures Stream() == Flight() + Messages(buffers + [current])
    {
      hide Messages;
      MessagesConcat(InFlight(), buffers + [current]);
      assert Pending() == InFlight() + (buffers + [current]);
    }

    lemma NoMessages()
      ensures Messages([]) == []
    {
    }

    lemma CancelSuffix(a: seq<Message>, b: seq<Message>, c: seq<Message>)
      requires a + c == b + c
      ensures a == b
    {
      assert a == (a + c)[..|a|] && b == (b + c)[..|b|];
    }

    method Swap()
      requires Valid() && phase == Waiting
      modifies this`current, this`next, this`buffers, this`back1, this`back2, this`toWrite, this`phase
      ensures Valid() && phase == Trimming && Stream() == old(Stream()) && current.messages == []
      ensures toWrite == old(buffers) + [old(current)] && buffers == []
    {
      hide Messages, Flat, Apart, AllSound;
      ghost var queued := Queued();
      ExchangedApart(current, next, back1, back2, buffers);
      SoundPlus(buffers, current);
      buffers := buffers + [current];
      current, back1 := back1, null;
      toWrite, buffers := buffers, [];
      if next == null {
        next, back2 := back2, null;
      }
      phase := Trimming;
      NoneSound();
      assert Queued() == queued + [old(current)];
      MessagesLast(Queued(), current);
    }

    lemma NoneSound()
      ensures AllSound([])
    {
    }

    /** More than 25 buffers: only the first two are kept. */
    method Trim()
      requires Valid() && Faithful() && phase == Trimming
      modifies this`toWrite, this`phase, this`dropped
      ensures Valid() && Faithful() && phase == Writing(0)
      ensures |old(toWrite)| <= 25 ==> toWrite == old(toWrite) && Stream() == old(Stream()) && Flight() == old(Flight()) && dropped == old(dropped)
      ensures |old(toWrite)| > 25 ==> dropped && toWrite == old(toWrite)[..2]
    {
      hide Messages, Flat, Valid, Faithful, Stream, Flight;
      StreamIs();
      ghost var was, rest := Flight(), Messages(buffers + [current]);
      Cut();
      StreamIs();
      if Stream() == was + rest { CancelSuffix(Flight(), was, rest); }
    }

    method Cut()
      requires Valid() && Faithful() && phase == Trimming
      modifies this`toWrite, this`phase, this`dropped
      ensures Valid() && Faithful() && phase == Writing(0)
      ensures |old(toWrite)| <= 25 ==> toWrite == old(toWrite) && Stream() == old(Stream()) && dropped == old(dropped)
      ensures |old(toWrite)| > 25 ==> dropped && toWrite == old(toWrite)[..2]
    {
      hide Messages, Flat, Apart, AllSound, Subsequence;
      ghost var was, before := toWrite, Stream();
      if |toWrite| > 25 {
        FewerApart(current, next, back1, back2, toWrite, buffers, 2);
        SoundFewer(toWrite, 2);
        toWrite := toWrite[..2];
        dropped := true;
        CutStream(written, was, buffers + [current]);
        assert toWrite + buffers + [current] == was[..2] + (buffers + [current]);
        assert was + buffers + [current] == was + (buffers + [current]);
        SubsequenceTransitive(written + Messages(toWrite + buffers + [current]), before, accepted);
      }
      phase := Writing(0);
      assert toWrite[0..] == toWrite;
    }

    /** Leaving out all but the first two of `bs`. */
    lemma CutStream(ms: seq<Message>, bs: seq<Buffer>, cs: seq<Buffer>)
      requires |bs| >= 2
      ensures Subsequence(ms + Messages(bs[..2] + cs), ms + Messages(bs + cs))
    {
      assert bs == bs[..2] + bs[2..];
      MessagesConcat(bs[..2], bs[2..]);
      MessagesConcat(bs[..2], cs);
      MessagesConcat(bs, cs);
      SubsequenceCut(ms + Messages(bs[..2]), Messages(bs[2..]), Messages(cs));
      assert ms + Messages(bs[..2] + cs) == (ms + Messages(bs[..2])) + Messages(cs);
      assert ms + Messages(bs + cs) == (ms + Messages(bs[..2])) + Messages(bs[2..]) + Messages(cs);
    }

    /** Back end: one buffer goes to the file. */
    method Write()
      requires Valid() && phase.Writing?
      modifies this`output, this`written, this`phase
      ensures Valid() && Stream() == old(Stream()) && Flight() == old(Flight())
      ensures if old(phase).i < |toWrite|
              then phase == Writing(old(phase).i + 1) && written == old(written) + toWrite[old(phase).i].messages
              else phase == Refilling && written == old(written)
    {
      hide Messages, Flat, Valid, Stream, Flight;
      StreamIs();
      ghost var was, rest := Flight(), Messages(buffers + [current]);
      WriteNext();
      StreamIs();
      CancelSuffix(Flight(), was, rest);
    }

    method WriteNext()
      requires Valid() && phase.Writing?
      modifies this`output, this`written, this`phase
      ensures Valid() && Stream() == old(Stream())
      ensures if old(phase).i < |toWrite|
              then phase == Writing(old(phase).i + 1) && written == old(written) + toWrite[old(phase).i].messages
              else phase == Refilling && written == old(written)
    {
      hide Messages, Flat, Apart, AllSound;
      var i := phase.i;
      if i < |toWrite| {
        var b := toWrite[i];
        IsSound(toWrite, i);
        FirstPending(i);
        output := output + b.GetData();
        FlatConcat(written, b.messages);
        written := written + b.messages;
        phase := Writing(i + 1);
      } else {
        assert toWrite[i..] + buffers == buffers;
        phase := Refilling;
      }
    }

    lemma FirstPending(i: nat)
      requires phase == Writing(i) && i < |toWrite|
      ensures Messages(Pending()) == toWrite[i].messages + Messages(toWrite[i + 1..] + buffers + [current])
    {
      hide Messages;
      FirstMessages(toWrite[i], toWrite[i + 1..] + buffers + [current]);
      assert Pending() == [toWrite[i]] + (toWrite[i + 1..] + buffers + [current]);
    }

    lemma FirstMessages(b: Buffer, bs: seq<Buffer>)
      ensures Messages([b] + bs) == b.messages + Messages(bs)
    {
      MessagesConcat([b], bs);
      assert [b][..0] == [] && Messages([b]) == b.messages;
    }


    /** Written buffers beyond two are let go. */
    method Resize()
      requires Valid() && phase == Refilling
      modifies this`toWrite
      ensures Valid() && Stream() == old(Stream()) && Flight() == old(Flight())
    {
      hide Messages, Flat, Apart, AllSound;
      if |toWrite| > 2 {
        FewerApart(current, next, back1, back2, toWrite, buffers, 2);
        SoundFewer(toWrite, 2);
        toWrite := toWrite[..2];
      }
    }

    /** The last buffer written becomes the first spare: there is one. */
    method Recover1()
      requires Valid() && phase == Refilling && back1 == null
      modifies this`back1, this`toWrite, repr
      ensures Valid() && back1 != null && Stream() == old(Stream()) && Flight() == old(Flight())
    {
      hide Messages, Flat, Apart, AllSound;
      RecoveredApart(current, next, back1, back2, toWrite, buffers);
      SoundFewer(toWrite, |toWrite| - 1);
      var b := toWrite[|toWrite| - 1];
      IsSound(toWrite, |toWrite| - 1);
      LastApart(current, next, back1, back2, toWrite, buffers);
      back1, toWrite := b, toWrite[..|toWrite| - 1];
      b.Reset();
    }

    method Recover2()
      requires Valid() && phase == Refilling && back2 == null
      modifies this`back2, this`toWrite, repr
      ensures Valid() && back1 == old(back1) && back2 != null && Stream() == old(Stream()) && Flight() == old(Flight())
    {
      hide Messages, Flat, Apart, AllSound;
      RecoveredApart(current, next, back1, back2, toWrite, buffers);
      SoundFewer(toWrite, |toWrite| - 1);
      var b := toWrite[|toWrite| - 1];
      IsSound(toWrite, |toWrite| - 1);
      LastApart(current, next, back1, back2, toWrite, buffers);
      back2, toWrite := b, toWrite[..|toWrite| - 1];
      b.Reset();
    }

    lemma IsSound(bs: seq<Buffer>, i: nat)
      requires AllSound(bs) && i < |bs|
      ensures Sound(bs[i])
    {
    }

    lemma LastApart(current: Buffer, next: Buffer?, back1: Buffer?, back2: Buffer?, toWrite: seq<Buffer>, buffers: seq<Buffer>)
      requires Apart(current, next, back1, back2, toWrite, buffers) && toWrite != []
      ensures var b := toWrite[|toWrite| - 1];
              b != current && b != next && b != back1 && b != back2 && b !in toWrite[..|toWrite| - 1] && b !in buffers
    {
    }

    /** Back end: restore the spares and let the rest go. */
    method Refill()
      requires Valid() && phase == Refilling
      modifies this`back1, this`back2, this`toWrite, this`phase, repr
      ensures Valid() && phase == Waiting && Stream() == old(Stream()) && Flight() == old(Flight())
    {
      hide Messages, Flat, AllSound, Apart, Valid, Stream, Flight;
      Resize();
      if back1 == null { Recover1(); }
      if back2 == null { Recover2(); }
      Clear();
    }

    /** What is left over is let go. */
    method Clear()
      requires Valid() && phase == Refilling && back1 != null && back2 != null
      modifies this`toWrite, this`phase
      ensures Valid() && phase == Waiting && Stream() == old(Stream()) && Flight() == old(Flight())
    {
      hide Messages, Flat, Apart, AllSound;
      FewerApart(current, next, back1, back2, toWrite, buffers, 0);
      NoneSound();
      toWrite, phase := [], Waiting;
    }

    // ---------------------------------------------------------------- every interleaving

    /** One stretch of the back-end thread: each does what its place in the loop says. */
    method BackEnd()
      requires Valid() && Faithful() && Delivers()
      modifies this, repr
      ensures Valid() && Faithful() && Delivers() && repr == old(repr) && accepted == old(accepted)
      ensures |old(toWrite)| <= 25 || old(phase) != Trimming ==> dropped == old(dropped) && Stream() == old(Stream())
      ensures match old(phase)
              case Waiting => phase == Trimming && toWrite == old(buffers) + [old(current)] && taken == |accepted|
              case Trimming => phase == Writing(0) && toWrite == (if |old(toWrite)| > 25 then old(toWrite)[..2] else old(toWrite))
              case Writing(i) => toWrite == old(toWrite) && phase == if i < |old(toWrite)| then Writing(i + 1) else Refilling
              case Refilling => phase == Waiting
      ensures old(phase) != Waiting ==> taken == old(taken)
    {
      hide Subsequence, Messages, Flat, Apart, AllSound, Stream, Flight, Valid;
      match phase
      case Waiting => Exchange(); AllTaken();
      case Trimming => Trim();
      case Writing(_) => Write();
      case Refilling => Refill();
    }

    /** Right after the exchange everything accepted is in flight. */
    lemma AllTaken()
      requires Faithful() && phase == Trimming && Flight() == Stream() && taken == |accepted|
      ensures Delivers()
    {
      assert accepted[..|accepted|] == accepted;
    }

    /** A whole round of the back end, without interference: everything logged before is in
        the file, in order, if there were at most 25 buffers of it. */
    method Round()
      requires Valid() && Faithful() && Delivers() && phase == Waiting
      modifies this, repr
      ensures Valid() && Faithful() && Delivers() && phase == Waiting && accepted == old(accepted)
      ensures |old(buffers)| < 25 && !old(dropped) ==> !dropped && written == accepted && output == Flat(accepted)
    {
      hide Valid, Faithful, Delivers, Stream, Messages, Flat;
      BackEnd();
      BackEnd();
      while phase.Writing?
        invariant Valid() && Faithful() && Delivers() && accepted == old(accepted) && repr == old(repr)
        invariant phase.Writing? || phase == Refilling
        invariant phase.Writing? ==> phase.i <= |toWrite|
        invariant taken == |accepted| && (|old(buffers)| < 25 && !old(dropped) ==> !dropped)
        decreases phase.Writing?, if phase.Writing? then |toWrite| - phase.i else 0
      {
        BackEnd();
      }
      BackEnd();
      AtRest();
    }

    /** While the back end waits, all it has taken over is in the file. */
    lemma AtRest()
      requires Valid() && Delivers() && phase == Waiting
      ensures !dropped ==> taken <= |accepted| && written == accepted[..taken] && output == Flat(accepted[..taken])
      ensures !dropped && taken == |accepted| ==> written == accepted
    {
      hide Flat;
      assert Messages([]) == [];
      assert taken == |accepted| ==> accepted[..taken] == accepted;
    }
  }

  /** A front-end thread logs a message, or the back-end thread gets a stretch further. */
  datatype Event = Log(str: Message) | Back

  /** The messages that some buffer can hold. */
  function Acceptable(events: seq<Event>): seq<Message> {
    if events == [] then []
    else Acceptable(events[..|events| - 1])
         + (if events[|events| - 1].Log? && |events[|events| - 1].str| < LARGE_BUFFER_SIZE then [events[|events| - 1].str] else [])
  }

  /** Whatever the interleaving: the file, the buffers in flight, those queued and the
      current one together hold every message accepted, in order, until a round is cut
      short, and a subsequence of whole messages ever after; and until then the file and
      the buffers in flight hold exactly what had been accepted when the back end last took
      over the buffers. */
  method Run(events: seq<Event>) returns (log: Logger)
    ensures fresh(log) && log.Valid() && log.Faithful() && log.Delivers()
    ensures log.accepted == Acceptable(events)
  {
    log := Begin();
    hide Logger.Valid, Logger.Faithful, Logger.Delivers;
    for i := 0 to |events|
      invariant log.Valid() && log.Faithful() && log.Delivers() && fresh(log) && fresh(log.repr)
      invariant log.accepted == Acceptable(events[..i])
    {
      Happen(log, events[i]);
      assert events[..i + 1][..i] == events[..i];
    }
    assert events[..|events|] == events;
  }

  method Begin() returns (log: Logger)
    ensures fresh(log) && fresh(log.repr) && log.Valid() && log.Faithful() && log.Delivers() && log.accepted == []
  {
    log := new Logger();
    log.StartsValid();
  }

  method Happen(log: Logger, e: Event)
    requires log.Valid() && log.Faithful() && log.Delivers()
    modifies log, log.repr
    ensures log.Valid() && log.Faithful() && log.Delivers() && fresh(log.repr - old(log.repr))
    ensures log.accepted == old(log.accepted) + (if e.Log? && |e.str| < LARGE_BUFFER_SIZE then [e.str] else [])
  {
    hide Logger.Valid, Logger.Faithful, Logger.Stream, Logger.Delivers;
    match e
    case Log(str) => log.Append(str);
    case Back => log.BackEnd();
  }
}
