/** `try_dequeue` without a token: the producers are scored by size, at most three
    non-empty ones are considered, the largest is dequeued from, and if another consumer
    was faster, all the others in turn. */
module TryDequeue {
  import opened Circular
  import Tally
  import Tickets

  /** What `size_approx` loads from a producer: the tail, and later the head, which may by
      then have passed that tail. */
  datatype Loads = Loads(tail: nat, head: nat) {
    function Between(): nat {
      if head < tail then tail - head else 0
    }
    /** The head is less than half a turn behind the tail, and not so far beyond it that it
        looks as if it were. */
    predicate Telling(half: nat)
      requires half > 0
    {
      tail < head + half && (head <= tail || Wrap(half, tail - head) == 0 || Wrap(half, tail - head) >= half)
    }
  }

  /** The estimate is the number of elements between the head and the tail loaded, and none
      if the head has passed that tail, exactly for telling loads. */
  function SizeApprox(half: nat, r: Loads): (n: nat)
    requires half > 0
    ensures n == r.Between() <==> r.Telling(half)
    ensures r.head <= r.tail + half && r.tail < r.head + half ==> r.Telling(half)
  {
    SizeIsExact(half, r);
    if CircularLess(half, r.head, r.tail) then Wrap(half, r.tail - r.head) else 0
  }

  lemma SizeIsExact(half: nat, r: Loads)
    requires half > 0
    ensures (if CircularLess(half, r.head, r.tail) then Wrap(half, r.tail - r.head) else 0) == r.Between() <==> r.Telling(half)
    ensures r.head <= r.tail + half && r.tail < r.head + half ==> r.Telling(half)
  {
    var m: int := 2 * half;
    var q := Turns(r.tail - r.head, 2 * half);
    var x: int := Wrap(half, r.tail - r.head);
    if x == 0 {
      WrapUnique(half, r.head - r.tail, -q, 0);
    } else {
      assert r.head - r.tail == (-q - 1) * m + (m - x);
      WrapUnique(half, r.head - r.tail, -q - 1, m - x);
    }
    if 0 <= r.tail - r.head < half { WrapUnique(half, r.tail - r.head, 0, r.tail - r.head); }
    if r.tail < r.head <= r.tail + half { WrapUnique(half, r.tail - r.head, -1, r.tail - r.head + m); }
  }

  // ------------------------------------------------------------------ scoring

  /** How many of the sizes are positive. */
  function NonEmpty(sizes: seq<nat>): nat {
    if sizes == [] then 0 else NonEmpty(sizes[..|sizes| - 1]) + (if sizes[|sizes| - 1] > 0 then 1 else 0)
  }

  lemma {:induction false} NonEmptyIff(sizes: seq<nat>)
    ensures NonEmpty(sizes) > 0 <==> exists i :: 0 <= i < |sizes| && sizes[i] > 0
  {
    if sizes != [] {
      NonEmptyIff(sizes[..|sizes| - 1]);
    }
  }

  lemma NoneBefore(sizes: seq<nat>)
    ensures NonEmpty(sizes[..0]) == 0
  {
  }

  lemma OneMore(sizes: seq<nat>, i: nat)
    requires i < |sizes|
    ensures NonEmpty(sizes[..i + 1]) == NonEmpty(sizes[..i]) + (if sizes[i] > 0 then 1 else 0)
  {
    assert sizes[..i + 1][..i] == sizes[..i];
  }

  /** What the producers answer as they are asked for their sizes. */
  function Sizes(half: nat, loads: seq<Loads>): (r: seq<nat>)
    requires half > 0
    ensures |r| == |loads| && forall i :: 0 <= i < |loads| ==> r[i] == SizeApprox(half, loads[i])
  {
    seq(|loads|, i requires 0 <= i < |loads| => SizeApprox(half, loads[i]))
  }

  /** Position `j` is among the first three non-empty ones. */
  ghost predicate Candidate(sizes: seq<nat>, j: nat) {
    j < |sizes| && sizes[j] > 0 && NonEmpty(sizes[..j]) < 3
  }

  /** `best` is the first of the largest candidates. */
  ghost predicate IsBest(sizes: seq<nat>, best: nat) {
    && Candidate(sizes, best)
    && (forall j :: 0 <= j < |sizes| && Candidate(sizes, j) ==>
          sizes[j] < sizes[best] || (sizes[j] == sizes[best] && best <= j))
  }

  /** The scoring loop; the size a producer answers is that of SizeApprox, right or not. */
  method Score(half: nat, loads: seq<Loads>) returns (nonEmptyCount: nat, best: nat)
    requires half > 0
    ensures nonEmptyCount > 0 <==> exists i :: 0 <= i < |loads| && SizeApprox(half, loads[i]) > 0
    ensures nonEmptyCount > 0 ==> IsBest(Sizes(half, loads), best)
  {
    hide NonEmpty, Sizes, CircularLess, Wrap, SizeApprox;
    ghost var sizes := Sizes(half, loads);
    NoneBefore(sizes);
    nonEmptyCount, best := 0, 0;
    var bestSize, i := 0, 0;
    while nonEmptyCount < 3 && i < |loads|
      invariant i <= |loads| && nonEmptyCount <= 3
      invariant nonEmptyCount == NonEmpty(sizes[..i])
      invariant nonEmptyCount > 0 ==> best < i && bestSize == sizes[best] && Candidate(sizes, best)
      invariant nonEmptyCount == 0 ==> bestSize == 0
      invariant forall j :: 0 <= j < i && Candidate(sizes, j) ==>
        sizes[j] < bestSize || (sizes[j] == bestSize && best <= j)
    {
      OneMore(sizes, i);
      var size := SizeApprox(half, loads[i]);
      if size > 0 {
        if size > bestSize {
          bestSize := size;
          best := i;
        }
        nonEmptyCount := nonEmptyCount + 1;
      }
      i := i + 1;
    }
    NonEmptyIff(sizes[..i]);
    NoCandidateBeyond(sizes, i);
    assert i == |sizes| ==> sizes[..i] == sizes;
  }

  /** The scan stops at the end or after three non-empty producers. */
  lemma {:induction false} NoCandidateBeyond(sizes: seq<nat>, i: nat)
    requires i <= |sizes| && (i == |sizes| || NonEmpty(sizes[..i]) >= 3)
    ensures forall j :: i <= j < |sizes| ==> !Candidate(sizes, j)
  {
    forall j | i <= j < |sizes| ensures !Candidate(sizes, j) {
      NonEmptyGrows(sizes, i, j);
    }
  }

  lemma {:induction false} NonEmptyGrows(sizes: seq<nat>, i: nat, j: nat)
    requires i <= j <= |sizes|
    ensures NonEmpty(sizes[..i]) <= NonEmpty(sizes[..j])
  {
    if i < j {
      NonEmptyGrows(sizes, i, j - 1);
      assert sizes[..j][..j - 1] == sizes[..j - 1];
    }
  }

  // ------------------------------------------------------------------ under interference

  /** The first producer that hands out an element: the best one, or else the first of the
      others. */
  ghost predicate IsFirst(answers: seq<bool>, best: nat, from: nat) {
    && best < |answers| && from < |answers| && answers[from]
    && (from != best ==> !answers[best] && forall j :: 0 <= j < from ==> !answers[j])
  }

  /** Whatever other threads do meanwhile. `loads` are the answers of the producers as
      they are scored; `answers` tell for each producer whether a dequeue from it succeeds
      when it is tried. By then newer producers may be in front of the list. The call
      fails only if every producer appeared empty when it was scored, or every one refused
      when it was tried. */
  method TryDequeue(half: nat, loads: seq<Loads>, answers: seq<bool>) returns (ok: bool, from: nat)
    requires half > 0 && |loads| <= |answers|
    ensures ok <==> (exists i :: 0 <= i < |loads| && SizeApprox(half, loads[i]) > 0) && (exists i :: 0 <= i < |answers| && answers[i])
    ensures ok ==> exists best: nat :: IsBest(Sizes(half, loads), best) && IsFirst(answers, |answers| - |loads| + best, from)
  {
    hide Sizes, NonEmpty, Candidate, SizeApprox;
    ok, from := false, 0;
    var nonEmptyCount, best := Score(half, loads);
    if nonEmptyCount > 0 {
      BestIsThere(Sizes(half, loads), best);
      var at := |answers| - |loads| + best;
      if answers[at] {
        assert IsFirst(answers, |answers| - |loads| + best, at);
        return true, at;
      }
      var i := 0;
      while i < |answers|
        invariant i <= |answers| && forall j :: 0 <= j < i ==> !answers[j]
      {
        if i != at && answers[i] {
          assert IsFirst(answers, |answers| - |loads| + best, i);
          return true, i;
        }
        i := i + 1;
      }
    }
  }

  lemma BestIsThere(sizes: seq<nat>, best: nat)
    requires IsBest(sizes, best)
    ensures best < |sizes|
  {
  }

  // ------------------------------------------------------------------ without interference

  class Producer {
    var tailIndex: nat
    var headIndex: nat
    var dequeueOptimisticCount: nat
    var dequeueOvercommit: nat

    /** No ticket is in flight and the stream is shorter than half a turn. */
    predicate Quiet(half: nat)
      reads this
    {
      dequeueOptimisticCount == headIndex + dequeueOvercommit && headIndex <= tailIndex < headIndex + half
    }

    function Loaded(): Loads
      reads this
    {
      Loads(tailIndex, headIndex)
    }

    function Size(): nat
      reads this
    {
      Loaded().Between()
    }

    /** The producer as a state of the ticket protocol, with one consumer at rest. */
    function AtRest(): Tickets.State
      reads this
    {
      Tickets.State(tailIndex, headIndex, dequeueOptimisticCount, dequeueOvercommit, [Tickets.Idle])
    }

    /** A whole call without interference, as the ticket protocol makes it. */
    method Dequeue(half: nat) returns (ok: bool, index: nat)
      requires Quiet(half)
      modifies this
      ensures Quiet(half) && tailIndex == old(tailIndex)
      ensures ok <==> old(Size()) > 0
      ensures ok ==> index == old(headIndex) && headIndex == old(headIndex) + 1
      ensures !ok ==> unchanged(this)
      ensures Tickets.Solo(half, old(AtRest()), 0, 1) == AtRest().(pcs := [if ok then Tickets.Claimed(index, 1) else Tickets.Idle])
    {
      QuietIsLedger(half, this);
      Tickets.SoloTakes(half, AtRest(), 0, 1);
      ok, index := false, 0;
      var tail := tailIndex;
      var overcommit := dequeueOvercommit;
      CircularLessExact(half, dequeueOptimisticCount - overcommit, tail);
      if CircularLess(half, dequeueOptimisticCount - overcommit, tail) {
        var myDequeueCount := dequeueOptimisticCount;
        dequeueOptimisticCount := dequeueOptimisticCount + 1;
        tail := tailIndex;
        // With no other consumer the second test repeats the first.
        assert CircularLess(half, myDequeueCount - overcommit, tail);
        index := headIndex;
        headIndex := headIndex + 1;
        ok := true;
      }
    }
  }

  /** A producer is quiet exactly when the ledger of its tickets balances with none in
      flight, and fewer than half a turn of elements are waiting. */
  lemma QuietIsLedger(half: nat, p: Producer)
    ensures Tickets.InFlight(p.AtRest()) == 0
    ensures p.Quiet(half) <==> Tickets.Ledger(p.AtRest()) && p.headIndex <= p.tailIndex < p.headIndex + half
  {
    Tally.SumZero(p.AtRest().pcs, Tickets.FlightWeight());
  }

  ghost predicate Distinct(ps: seq<Producer>) {
    forall i, j :: 0 <= i < j < |ps| ==> ps[i] != ps[j]
  }

  ghost function AllSizes(ps: seq<Producer>): (r: seq<nat>)
    reads ps
    ensures |r| == |ps| && forall i :: 0 <= i < |ps| ==> r[i] == ps[i].Size()
  {
    if ps == [] then [] else AllSizes(ps[..|ps| - 1]) + [ps[|ps| - 1].Size()]
  }

  function AllLoaded(ps: seq<Producer>): (r: seq<Loads>)
    reads ps
    ensures |r| == |ps| && forall i :: 0 <= i < |ps| ==> r[i] == ps[i].Loaded()
  {
    if ps == [] then [] else AllLoaded(ps[..|ps| - 1]) + [ps[|ps| - 1].Loaded()]
  }

  lemma QuietSizes(half: nat, ps: seq<Producer>)
    requires half > 0 && forall p <- ps :: p.Quiet(half)
    ensures Sizes(half, AllLoaded(ps)) == AllSizes(ps)
  {
    assert forall i :: 0 <= i < |ps| ==> ps[i] in ps && AllLoaded(ps)[i] == ps[i].Loaded();
  }

  /** Without interference: fails exactly when every producer is empty; otherwise takes the
      oldest element of the first of the largest candidates and touches no other producer. */
  method TryDequeueAlone(half: nat, ps: seq<Producer>) returns (ok: bool, from: nat, index: nat)
    requires half > 0 && Distinct(ps) && forall p <- ps :: p.Quiet(half)
    modifies ps
    ensures forall p <- ps :: p.Quiet(half)
    ensures ok <==> exists i :: 0 <= i < |ps| && old(ps[i].Size()) > 0
    ensures ok ==> IsBest(old(AllSizes(ps)), from)
    ensures ok ==> index == old(ps[from].headIndex) && ps[from].headIndex == index + 1
    ensures forall i :: 0 <= i < |ps| && !(ok && i == from) ==> unchanged(ps[i])
  {
    ok, from, index := false, 0, 0;
    var loads := AllLoaded(ps);
    hide SizeApprox, AllLoaded, AllSizes, Sizes, NonEmpty, Tickets.Solo;
    QuietSizes(half, ps);
    assert forall i :: 0 <= i < |ps| ==> ps[i].Size() == AllSizes(ps)[i] == SizeApprox(half, loads[i]);
    var nonEmptyCount, best := Score(half, loads);
    if nonEmptyCount > 0 {
      ok, index := ps[best].Dequeue(half);
      // The other producers are tried only after an interfering consumer.
      assert ok;
      from := best;
    }
  }
}
