/** The optimistic-ticket dequeue of one producer: any number of consumers, one atomic
    access to tailIndex, headIndex, dequeueOptimisticCount or dequeueOvercommit per
    step. A single-item `dequeue` is the bulk call with `max` equal to one
    (Circular.SingleTestIsBulkTest). */
module Tickets {
  import opened Basics
  import opened Circular
  import opened Tally

  datatype Pc =
    | Idle
    | LoadTail(max: nat)
    | LoadOver(max: nat, tail: nat)
    | Test(max: nat, tail: nat, over: nat)
    | Draw(want: nat, over: nat)
    /** Tickets `my .. my + want` are drawn and undecided. */
    | Drawn(my: nat, want: nat, over: nat)
    /** Granted `take` of the tickets; `lack` are still to be added to dequeueOvercommit. */
    | Short(take: nat, lack: nat)
    | Take(take: nat)
    | Miss(lack: nat)
    /** Elements `first .. first + count` are this consumer's. */
    | Claimed(first: nat, count: nat)

  datatype State = State(tail: nat, head: nat, opt: nat, over: nat, pcs: seq<Pc>)

  datatype Action =
    | Publish(k: nat)
    | Call(t: nat, max: nat)
    | Run(t: nat)
    | Finish(t: nat)

  function Initial(threads: nat): State {
    State(0, 0, 0, 0, seq(threads, _ => Idle))
  }

  predicate Enabled(s: State, a: Action) {
    match a
    case Publish(_) => true
    case Call(t, max) => t < |s.pcs| && s.pcs[t] == Idle && max > 0
    case Run(t) => t < |s.pcs| && !s.pcs[t].Idle? && !s.pcs[t].Claimed?
    case Finish(t) => t < |s.pcs| && s.pcs[t].Claimed?
  }

  function SetPc(s: State, t: nat, pc: Pc): State
    requires t < |s.pcs|
  {
    s.(pcs := s.pcs[t := pc])
  }

  function Apply(half: nat, s: State, a: Action): State
    requires half > 0 && Enabled(s, a)
  {
    match a
    case Publish(k) => s.(tail := s.tail + k)
    case Call(t, max) => SetPc(s, t, LoadTail(max))
    case Run(t) => Advance(half, s, t)
    case Finish(t) => SetPc(s, t, Idle)
  }

  function Advance(half: nat, s: State, t: nat): State
    requires half > 0 && t < |s.pcs| && !s.pcs[t].Idle? && !s.pcs[t].Claimed?
  {
    match s.pcs[t]
    case LoadTail(max) => SetPc(s, t, LoadOver(max, s.tail))
    case LoadOver(max, tail) => SetPc(s, t, Test(max, tail, s.over))
    case Test(max, tail, over) =>
      var desired := Wrap(half, tail - (s.opt - over));
      SetPc(s, t, if CircularLess(half, 0, desired) then Draw(Min(desired, max), over) else Idle)
    case Draw(want, over) =>
      SetPc(s, t, Drawn(s.opt, want, over)).(opt := s.opt + want)
    case Drawn(my, want, over) =>
      SetPc(s, t, Decide(half, s.tail, my, want, over))
    case Short(take, lack) =>
      SetPc(s, t, Take(take)).(over := s.over + lack)
    case Take(take) =>
      SetPc(s, t, Claimed(s.head, take)).(head := s.head + take)
    case Miss(lack) =>
      SetPc(s, t, Idle).(over := s.over + lack)
  }

  /** The test after the tail has been reloaded. */
  function Decide(half: nat, tail: nat, my: nat, want: nat, over: nat): Pc
    requires half > 0
  {
    var actual := Wrap(half, tail - (my - over));
    if CircularLess(half, 0, actual) then
      var take := Min(want, actual);
      if take < want then Short(take, want - take) else Take(take)
    else
      Miss(want)
  }

  // ------------------------------------------------------------------ counting

  /** A ticket is undecided, or decided to succeed or to fail. */
  datatype Verdict = Pending | Won | Lost

  function Is(v: Verdict): Verdict -> nat {
    (x: Verdict) => if x == v then 1 else 0
  }

  function Count(log: seq<Verdict>, v: Verdict): nat {
    Sum(log, Is(v))
  }

  /** Tickets a thread has drawn and not yet accounted for in either counter. */
  function FlightWeight(): Pc -> nat {
    (pc: Pc) =>
      match pc
      case Drawn(_, want, _) => want
      case Short(take, lack) => take + lack
      case Take(take) => take
      case Miss(lack) => lack
      case _ => 0
  }

  function WonWeight(): Pc -> nat {
    (pc: Pc) =>
      match pc
      case Short(take, _) => take
      case Take(take) => take
      case _ => 0
  }

  function LostWeight(): Pc -> nat {
    (pc: Pc) =>
      match pc
      case Short(_, lack) => lack
      case Miss(lack) => lack
      case _ => 0
  }

  function InFlight(s: State): nat { Sum(s.pcs, FlightWeight()) }
  function Granted(s: State): nat { Sum(s.pcs, WonWeight()) }
  function Refused(s: State): nat { Sum(s.pcs, LostWeight()) }

  // ------------------------------------------------------------------ ledger

  /** Every drawn ticket is a claimed element, an overcommit, or still in flight. */
  ghost predicate Ledger(s: State) {
    s.opt == s.head + s.over + InFlight(s)
  }

  lemma InitialLedger(threads: nat)
    ensures Ledger(Initial(threads))
  {
    SumZero(Initial(threads).pcs, FlightWeight());
  }

  /** The ledger holds at every step, whatever the tests answer. */
  lemma StepLedger(half: nat, s: State, a: Action)
    requires half > 0 && Ledger(s) && Enabled(s, a)
    ensures Ledger(Apply(half, s, a))
  {
    hide Sum, Rem;
    if !a.Publish? {
      SumUpdate(s.pcs, FlightWeight(), a.t, Apply(half, s, a).pcs[a.t]);
    }
  }

  // ------------------------------------------------------------------ safety

  /** The fewest published elements that justify ticket `m`: overcommits by earlier
      tickets make up for tickets that took nothing. */
  ghost predicate Covered(tail: nat, log: seq<Verdict>, m: nat)
    requires m < |log|
  {
    m + 1 <= tail + Count(log[..m], Lost)
  }

  ghost predicate PcInv(s: State, log: seq<Verdict>, pc: Pc)
    requires |log| == s.opt
  {
    match pc
    case LoadTail(max) => max > 0
    case LoadOver(max, _) => max > 0
    case Test(max, _, over) => max > 0 && over <= s.over
    case Draw(want, over) => want > 0 && over <= s.over
    case Drawn(my, want, over) =>
      && want > 0 && my + want <= s.opt
      && (forall i :: my <= i < my + want ==> log[i] == Pending)
      && over <= Count(log[..my], Lost)
    case Short(take, lack) => take > 0 && lack > 0
    case Take(take) => take > 0
    case Miss(lack) => lack > 0
    case Claimed(first, count) => count > 0 && first + count <= s.head
    case Idle => true
  }

  ghost predicate Apart(p: Pc, q: Pc) {
    && (p.Drawn? && q.Drawn? ==> p.my + p.want <= q.my || q.my + q.want <= p.my)
    && (p.Claimed? && q.Claimed? ==> p.first + p.count <= q.first || q.first + q.count <= p.first)
  }

  ghost predicate AllApart(pcs: seq<Pc>) {
    forall t, u :: 0 <= t < u < |pcs| ==> Apart(pcs[t], pcs[u])
  }

  /** `log` records the verdict of every ticket drawn so far. */
  ghost predicate Inv(s: State, log: seq<Verdict>) {
    && |log| == s.opt
    && Count(log, Won) == s.head + Granted(s)
    && Count(log, Lost) == s.over + Refused(s)
    && (forall t :: 0 <= t < |s.pcs| ==> PcInv(s, log, s.pcs[t]))
    && AllApart(s.pcs)
    && (forall m :: 0 <= m < |log| && log[m] == Won ==> Covered(s.tail, log, m))
  }

  /** A consumer's overcommit reading is less than half an index range behind. */
  predicate Timely(half: nat, s: State) {
    forall t :: 0 <= t < |s.pcs| && s.pcs[t].Drawn? ==> s.pcs[t].my - s.pcs[t].over <= s.tail + half
  }

  lemma InitialInv(threads: nat)
    ensures Inv(Initial(threads), [])
  {
    SumZero(Initial(threads).pcs, WonWeight());
    SumZero(Initial(threads).pcs, LostWeight());
  }

  /** The largest successful ticket bounds the number of successful tickets. */
  lemma {:induction false} WonIsPublished(tail: nat, log: seq<Verdict>, k: nat)
    requires k <= |log|
    requires forall m :: 0 <= m < |log| && log[m] == Won ==> Covered(tail, log, m)
    ensures Count(log[..k], Won) <= tail
    ensures Count(log[..k], Won) + Count(log[..k], Lost) <= k
  {
    if k > 0 {
      WonIsPublished(tail, log, k - 1);
      assert log[..k][..k - 1] == log[..k - 1];
      assert log[k - 1] == Won ==> Covered(tail, log, k - 1);
    }
  }

  /** headIndex, with every grant still to be taken, never passes tailIndex. */
  lemma HeadNeverPassesTail(s: State, log: seq<Verdict>)
    requires Inv(s, log)
    ensures s.head + Granted(s) <= s.tail
  {
    WonIsPublished(s.tail, log, |log|);
    assert log[..|log|] == log;
  }

  /** The log after tickets `my .. my + take` succeed and the next `lack` fail. */
  function Settle(log: seq<Verdict>, my: nat, take: nat, lack: nat): (r: seq<Verdict>)
    requires my + take + lack <= |log|
    ensures |r| == |log|
  {
    log[..my] + seq(take, _ => Won) + seq(lack, _ => Lost) + log[my + take + lack..]
  }

  function LogAfter(half: nat, s: State, log: seq<Verdict>, a: Action): seq<Verdict>
    requires half > 0 && Enabled(s, a)
  {
    if !a.Run? then log
    else
      match s.pcs[a.t]
      case Draw(want, _) => log + seq(want, _ => Pending)
      case Drawn(my, want, over) =>
        var next := Decide(half, s.tail, my, want, over);
        var take := if next.Miss? then 0 else next.take;
        if my + want <= |log| && take <= want then Settle(log, my, take, want - take) else log
      case _ => log
  }

  lemma SettleCounts(log: seq<Verdict>, my: nat, take: nat, lack: nat)
    requires my + take + lack <= |log|
    requires forall i :: my <= i < my + take + lack ==> log[i] == Pending
    ensures Count(Settle(log, my, take, lack), Won) == Count(log, Won) + take
    ensures Count(Settle(log, my, take, lack), Lost) == Count(log, Lost) + lack
    ensures forall m :: 0 <= m <= |log| ==> Count(log[..m], Lost) <= Count(Settle(log, my, take, lack)[..m], Lost)
  {
    hide Sum;
    var end := my + take + lack;
    assert log == log[..my] + log[my..end] + log[end..];
    forall v: Verdict | v != Pending
      ensures Count(Settle(log, my, take, lack), v) == Count(log, v) + (if v == Won then take else lack)
    {
      SumConcat(log[..my] + log[my..end], log[end..], Is(v));
      SumConcat(log[..my], log[my..end], Is(v));
      SumZero(log[my..end], Is(v));
      SumConcat(log[..my] + seq(take, _ => Won) + seq(lack, _ => Lost), log[end..], Is(v));
      SumConcat(log[..my] + seq(take, _ => Won), seq(lack, _ => Lost), Is(v));
      SumConcat(log[..my], seq(take, _ => Won), Is(v));
      SumConstant(seq(take, _ => Won), Is(v), if v == Won then 1 else 0);
      SumConstant(seq(lack, _ => Lost), Is(v), if v == Lost then 1 else 0);
    }
    SettleMonotone(log, my, take, lack);
  }

  lemma SettleMonotone(log: seq<Verdict>, my: nat, take: nat, lack: nat)
    requires my + take + lack <= |log|
    requires forall i :: my <= i < my + take + lack ==> log[i] == Pending
    ensures forall m :: 0 <= m <= |log| ==> Count(log[..m], Lost) <= Count(Settle(log, my, take, lack)[..m], Lost)
  {
    hide Sum;
    var log' := Settle(log, my, take, lack);
    forall m | 0 <= m <= |log| ensures Count(log[..m], Lost) <= Count(log'[..m], Lost) {
      SumMonotone(log[..m], log'[..m], Is(Lost));
    }
  }

  /** What a test that grants can rely on: a timely reading makes the wrapped
      difference a lower bound of the true one. */
  lemma GrantIsCovered(half: nat, tail: nat, my: nat, want: nat, over: nat)
    requires half > 0 && want > 0 && my - over <= tail + half
    ensures var next := Decide(half, tail, my, want, over);
            match next
            case Short(take, lack) => 0 < take && 0 < lack && take + lack == want && my + take <= tail + over
            case Take(take) => take == want && my + take <= tail + over
            case Miss(lack) => lack == want
            case _ => false
  {
    var d := tail - (my - over);
    var m := 2 * half;
    var actual: int := Wrap(half, d);
    var q := Turns(d, m);
    if 0 < actual {
      WrapUnique(half, 0 - actual, -1, m - actual);
      if actual < half {
        NegativeTurns(q, m);
      }
    } else {
      WrapUnique(half, 0, 0, 0);
    }
  }

  lemma StepPublish(half: nat, s: State, log: seq<Verdict>, k: nat)
    requires half > 0 && Inv(s, log)
    ensures Inv(Apply(half, s, Publish(k)), log)
  {
    forall m | 0 <= m < |log| && log[m] == Won ensures Covered(s.tail + k, log, m) {
      assert Covered(s.tail, log, m);
    }
    forall t | 0 <= t < |s.pcs| ensures PcInv(Apply(half, s, Publish(k)), log, s.pcs[t]) {
      assert PcInv(s, log, s.pcs[t]);
    }
  }

  /** The invariant of a program counter survives growth of the counters. */
  lemma PcInvGrows(s: State, s': State, log: seq<Verdict>, pc: Pc)
    requires |log| == s.opt == s'.opt && s.over <= s'.over && s.head <= s'.head && PcInv(s, log, pc)
    ensures PcInv(s', log, pc)
  {
  }

  /** Consumers stay apart when one of them moves, provided the moved one neither
      draws nor claims, or does so beyond everything drawn or claimed so far. */
  lemma StaysApart(s: State, log: seq<Verdict>, t: nat, pc: Pc)
    requires Inv(s, log) && t < |s.pcs|
    requires pc.Drawn? ==> pc.my >= s.opt
    requires pc.Claimed? ==> pc.first >= s.head
    ensures AllApart(s.pcs[t := pc])
  {
    var pcs := s.pcs[t := pc];
    forall u, v | 0 <= u < v < |pcs| ensures Apart(pcs[u], pcs[v]) {
      assert Apart(s.pcs[u], s.pcs[v]) && PcInv(s, log, s.pcs[u]) && PcInv(s, log, s.pcs[v]);
    }
  }

  /** A step that moves one consumer and keeps the log. */
  lemma StepKeepsLog(half: nat, s: State, log: seq<Verdict>, a: Action)
    requires half > 0 && Inv(s, log) && Enabled(s, a) && !a.Publish?
    requires a.Run? ==> !s.pcs[a.t].Draw? && !s.pcs[a.t].Drawn?
    ensures Inv(Apply(half, s, a), log)
  {
    var s' := Apply(half, s, a);
    MovedPc(half, s, log, a);
    SumUpdate(s.pcs, WonWeight(), a.t, s'.pcs[a.t]);
    SumUpdate(s.pcs, LostWeight(), a.t, s'.pcs[a.t]);
    StaysApart(s, log, a.t, s'.pcs[a.t]);
    forall u | 0 <= u < |s'.pcs| ensures PcInv(s', log, s'.pcs[u]) {
      if u != a.t {
        PcInvGrows(s, s', log, s.pcs[u]);
      }
    }
    forall m | 0 <= m < |log| && log[m] == Won ensures Covered(s'.tail, log, m) {
      assert Covered(s.tail, log, m);
    }
  }

  lemma MovedPc(half: nat, s: State, log: seq<Verdict>, a: Action)
    requires half > 0 && Inv(s, log) && Enabled(s, a) && !a.Publish?
    requires a.Run? ==> !s.pcs[a.t].Draw? && !s.pcs[a.t].Drawn?
    ensures var s' := Apply(half, s, a);
            && s'.opt == s.opt && s'.tail == s.tail && s'.pcs == s.pcs[a.t := s'.pcs[a.t]]
            && s.over <= s'.over && s.head <= s'.head
            && PcInv(s', log, s'.pcs[a.t])
            && !s'.pcs[a.t].Drawn?
            && (s'.pcs[a.t].Claimed? ==> s'.pcs[a.t].first >= s.head)
            && s'.head + WonWeight()(s'.pcs[a.t]) == s.head + WonWeight()(s.pcs[a.t])
            && s'.over + LostWeight()(s'.pcs[a.t]) == s.over + LostWeight()(s.pcs[a.t])
  {
    assert PcInv(s, log, s.pcs[a.t]);
    if a.Run? && s.pcs[a.t].Test? {
      var Test(max, tail, over) := s.pcs[a.t];
      var desired := Wrap(half, tail - (s.opt - over));
      if desired == 0 {
        WrapUnique(half, 0, 0, 0);
        assert !CircularLess(half, 0, desired);
      }
    }
  }

  lemma StepDraw(half: nat, s: State, log: seq<Verdict>, t: nat)
    requires half > 0 && Inv(s, log) && t < |s.pcs| && s.pcs[t].Draw?
    ensures Inv(Advance(half, s, t), LogAfter(half, s, log, Run(t)))
  {
    var s' := Advance(half, s, t);
    var drawn := seq(s.pcs[t].want, _ => Pending);
    var log' := log + drawn;
    assert PcInv(s, log, s.pcs[t]);
    forall v: Verdict | v != Pending ensures Count(log', v) == Count(log, v) {
      SumConcat(log, drawn, Is(v));
      SumZero(drawn, Is(v));
    }
    SumUpdate(s.pcs, WonWeight(), t, s'.pcs[t]);
    SumUpdate(s.pcs, LostWeight(), t, s'.pcs[t]);
    StaysApart(s, log, t, s'.pcs[t]);
    assert forall m :: 0 <= m <= |log| ==> log'[..m] == log[..m];
    assert log[..|log|] == log;
    forall u | 0 <= u < |s'.pcs| ensures PcInv(s', log', s'.pcs[u]) {
      PcInvExtends(s, s', log, drawn, s.pcs[u]);
    }
    forall m | 0 <= m < |log'| && log'[m] == Won ensures Covered(s'.tail, log', m) {
      assert Covered(s.tail, log, m);
    }
  }

  lemma PcInvExtends(s: State, s': State, log: seq<Verdict>, drawn: seq<Verdict>, pc: Pc)
    requires |log| == s.opt && PcInv(s, log, pc)
    requires s' == s.(opt := s.opt + |drawn|, pcs := s'.pcs)
    ensures PcInv(s', log + drawn, pc)
  {
    assert forall m :: 0 <= m <= |log| ==> (log + drawn)[..m] == log[..m];
  }

  lemma StepDecide(half: nat, s: State, log: seq<Verdict>, t: nat)
    requires half > 0 && Inv(s, log) && t < |s.pcs| && s.pcs[t].Drawn? && Timely(half, s)
    ensures Inv(Advance(half, s, t), LogAfter(half, s, log, Run(t)))
  {
    var Drawn(my, want, over) := s.pcs[t];
    assert PcInv(s, log, s.pcs[t]);
    GrantIsCovered(half, s.tail, my, want, over);
    var next := Decide(half, s.tail, my, want, over);
    SettleInv(s, log, t, next);
  }

  lemma SettleInv(s: State, log: seq<Verdict>, t: nat, next: Pc)
    requires Inv(s, log) && t < |s.pcs| && s.pcs[t].Drawn?
    requires next.Short? || next.Take? || next.Miss?
    requires WonWeight()(next) + LostWeight()(next) == s.pcs[t].want
    requires WonWeight()(next) > 0 ==> s.pcs[t].my + WonWeight()(next) <= s.tail + s.pcs[t].over
    requires PcInv(s, log, next)
    ensures s.pcs[t].my + s.pcs[t].want <= |log|
    ensures Inv(SetPc(s, t, next), Settle(log, s.pcs[t].my, WonWeight()(next), LostWeight()(next)))
  {
    var my, take, lack := s.pcs[t].my, WonWeight()(next), LostWeight()(next);
    assert PcInv(s, log, s.pcs[t]);
    var s' := SetPc(s, t, next);
    var log' := Settle(log, my, take, lack);
    SettleCounts(log, my, take, lack);
    SumUpdate(s.pcs, WonWeight(), t, next);
    SumUpdate(s.pcs, LostWeight(), t, next);
    StaysApart(s, log, t, next);
    SettleKeeps(s, log, t, take);
    SettleCovered(s, log, t, take);
    forall u | 0 <= u < |s'.pcs| ensures PcInv(s', log', s'.pcs[u]) {
      assert PcInv(s, log', if u == t then next else s.pcs[u]);
    }
  }

  lemma SettleCovered(s: State, log: seq<Verdict>, t: nat, take: nat)
    requires Inv(s, log) && t < |s.pcs| && s.pcs[t].Drawn? && take <= s.pcs[t].want
    requires take > 0 ==> s.pcs[t].my + take <= s.tail + s.pcs[t].over
    ensures s.pcs[t].my + s.pcs[t].want <= |log|
    ensures var log' := Settle(log, s.pcs[t].my, take, s.pcs[t].want - take);
            forall m :: 0 <= m < |log'| && log'[m] == Won ==> Covered(s.tail, log', m)
  {
    hide Sum, Granted, Refused, AllApart;
    var my, want := s.pcs[t].my, s.pcs[t].want;
    assert PcInv(s, log, s.pcs[t]);
    var log' := Settle(log, my, take, want - take);
    SettleCounts(log, my, take, want - take);
    assert log'[..my] == log[..my];
    forall m | 0 <= m < |log'| && log'[m] == Won ensures Covered(s.tail, log', m) {
      if my <= m < my + take {
        PrefixCounts(log', my, m);
      } else {
        assert log[m] == Won;
        assert Covered(s.tail, log, m);
      }
    }
  }

  /** Settling one consumer's tickets leaves the other consumers' undecided. */
  lemma SettleKeeps(s: State, log: seq<Verdict>, t: nat, take: nat)
    requires Inv(s, log) && t < |s.pcs| && s.pcs[t].Drawn? && take <= s.pcs[t].want
    ensures s.pcs[t].my + s.pcs[t].want <= |log|
    ensures forall u :: 0 <= u < |s.pcs| && u != t ==>
      PcInv(s, Settle(log, s.pcs[t].my, take, s.pcs[t].want - take), s.pcs[u])
  {
    var Drawn(my, want, over) := s.pcs[t];
    assert PcInv(s, log, s.pcs[t]);
    SettleCounts(log, my, take, want - take);
    forall u | 0 <= u < |s.pcs| && u != t ensures PcInv(s, Settle(log, my, take, want - take), s.pcs[u]) {
      assert PcInv(s, log, s.pcs[u]);
      assert if u < t then Apart(s.pcs[u], s.pcs[t]) else Apart(s.pcs[t], s.pcs[u]);
    }
  }

  lemma {:induction false} PrefixCounts(log: seq<Verdict>, i: nat, j: nat)
    requires i <= j <= |log|
    ensures Count(log[..i], Lost) <= Count(log[..j], Lost)
  {
    assert log[..j] == log[..i] + log[i..j];
    SumConcat(log[..i], log[i..j], Is(Lost));
  }

  /** Every step from a timely state keeps the invariant. */
  lemma StepInv(half: nat, s: State, log: seq<Verdict>, a: Action)
    requires half > 0 && Inv(s, log) && Enabled(s, a) && Timely(half, s)
    ensures Inv(Apply(half, s, a), LogAfter(half, s, log, a))
  {
    if a.Publish? {
      StepPublish(half, s, log, a.k);
    } else if a.Run? && s.pcs[a.t].Draw? {
      StepDraw(half, s, log, a.t);
    } else if a.Run? && s.pcs[a.t].Drawn? {
      StepDecide(half, s, log, a.t);
    } else {
      StepKeepsLog(half, s, log, a);
    }
  }

  // ------------------------------------------------------------------ the size of a claim

  predicate SmallPc(half: nat, pc: Pc) {
    match pc
    case Draw(want, _) => want < half
    case Drawn(_, want, _) => want < half
    case Short(take, lack) => take + lack < half
    case Take(take) => take < half
    case Miss(lack) => lack < half
    case Claimed(_, count) => count < half
    case _ => true
  }

  /** No call has tickets for half a turn of elements, whatever the tests answered. */
  predicate Small(half: nat, s: State) {
    forall t :: 0 <= t < |s.pcs| ==> SmallPc(half, s.pcs[t])
  }

  lemma StepSmall(half: nat, s: State, a: Action)
    requires half > 0 && Small(half, s) && Enabled(s, a)
    ensures Small(half, Apply(half, s, a))
  {
    hide Rem, Wrap;
    if a.Run? {
      assert SmallPc(half, s.pcs[a.t]);
      if s.pcs[a.t].Test? {
        var Test(_, tail, over) := s.pcs[a.t];
        CircularLessExact(half, 0, Wrap(half, tail - (s.opt - over)));
      }
    }
  }

  // ------------------------------------------------------------------ runs

  /** The states of a run, one action between each two. */
  ghost predicate IsRun(half: nat, states: seq<State>, actions: seq<Action>)
    requires half > 0
  {
    && |states| == |actions| + 1
    && (exists threads: nat :: states[0] == Initial(threads))
    && (forall i :: 0 <= i < |actions| ==> IsStep(half, states[i], actions[i], states[i + 1]))
  }

  ghost predicate IsStep(half: nat, s: State, a: Action, s': State)
    requires half > 0
  {
    Enabled(s, a) && s' == Apply(half, s, a)
  }

  ghost predicate IsTimelyRun(half: nat, states: seq<State>, actions: seq<Action>)
    requires half > 0
  {
    IsRun(half, states, actions) && forall i :: 0 <= i < |states| ==> Timely(half, states[i])
  }

  lemma {:induction false} RunInv(half: nat, states: seq<State>, actions: seq<Action>, i: nat) returns (log: seq<Verdict>)
    requires half > 0 && IsTimelyRun(half, states, actions) && i < |states|
    ensures Inv(states[i], log)
  {
    if i == 0 {
      var threads: nat :| states[0] == Initial(threads);
      InitialInv(threads);
      log := [];
    } else {
      log := RunInv(half, states, actions, i - 1);
      assert IsStep(half, states[i - 1], actions[i - 1], states[i]);
      StepInv(half, states[i - 1], log, actions[i - 1]);
      log := LogAfter(half, states[i - 1], log, actions[i - 1]);
    }
  }

  /** In every state of a timely run each claimed element is already published, and no
      two consumers hold the same element. */
  lemma ClaimsArePublishedAndApart(half: nat, states: seq<State>, actions: seq<Action>, i: nat, t: nat, u: nat)
    requires half > 0 && IsTimelyRun(half, states, actions) && i < |states|
    requires t < |states[i].pcs| && u < |states[i].pcs| && states[i].pcs[t].Claimed?
    ensures states[i].head <= states[i].tail
    ensures var p := states[i].pcs[t]; p.count > 0 && p.first + p.count <= states[i].tail
    ensures var p, q := states[i].pcs[t], states[i].pcs[u];
            t != u && q.Claimed? ==> p.first + p.count <= q.first || q.first + q.count <= p.first
  {
    var log := RunInv(half, states, actions, i);
    HeadNeverPassesTail(states[i], log);
    assert PcInv(states[i], log, states[i].pcs[t]);
    if t < u {
      assert Apart(states[i].pcs[t], states[i].pcs[u]);
    } else if u < t {
      assert Apart(states[i].pcs[u], states[i].pcs[t]);
    }
  }

  /** Elements are claimed in order and once only: a later claim starts at or after the
      end of an earlier one. */
  lemma ClaimedInOrder(half: nat, states: seq<State>, actions: seq<Action>, i: nat, j: nat)
    requires half > 0 && IsRun(half, states, actions) && i < j < |actions|
    requires Takes(states[i], actions[i]) && Takes(states[j], actions[j])
    ensures states[i].head + states[i].pcs[actions[i].t].take <= states[j].head
  {
    assert IsStep(half, states[i], actions[i], states[i + 1]);
    HeadGrows(half, states, actions, i + 1, j);
  }

  predicate Takes(s: State, a: Action) {
    a.Run? && a.t < |s.pcs| && s.pcs[a.t].Take?
  }

  lemma {:induction false} HeadGrows(half: nat, states: seq<State>, actions: seq<Action>, i: nat, j: nat)
    requires half > 0 && IsRun(half, states, actions) && i <= j < |states|
    ensures states[i].head <= states[j].head
    decreases j
  {
    if i < j {
      HeadGrows(half, states, actions, i, j - 1);
      assert IsStep(half, states[j - 1], actions[j - 1], states[j]);
    }
  }

  // ------------------------------------------------------------------ the timeliness condition

  /** A run is timely as long as, for each consumer, the overcommits since its reading
      and the tickets in flight number at most half the index range. */
  lemma FewInFlightIsTimely(half: nat, s: State, log: seq<Verdict>, t: nat)
    requires half > 0 && Inv(s, log) && Ledger(s) && t < |s.pcs| && s.pcs[t].Drawn?
    requires s.over - s.pcs[t].over + InFlight(s) <= half
    ensures s.pcs[t].my - s.pcs[t].over <= s.tail + half
  {
    HeadNeverPassesTail(s, log);
    assert PcInv(s, log, s.pcs[t]);
  }

  /** How far a ticket lies beyond the published elements, as its holder sees it. */
  function Lead(tail: nat, my: nat, over: nat): int {
    my - over - tail
  }

  /** The exact condition: the test grants only published elements if and only if the
      ticket leads by at most half a turn, or by so much more that its residue does. */
  lemma GrantSoundIffTimely(half: nat, tail: nat, my: nat, want: nat, over: nat)
    requires half > 1 && want > 0
    ensures (forall w: nat :: 0 < w <= want ==> SoundGrant(half, tail, my, w, over))
            <==> Lead(tail, my, over) <= half || Wrap(half, Lead(tail, my, over)) <= half
  {
    var d: int := Lead(tail, my, over);
    if d <= half {
      forall w: nat | 0 < w <= want ensures SoundGrant(half, tail, my, w, over) {
        GrantIsCovered(half, tail, my, w, over);
      }
    } else {
      FarTest(half, tail, my, over);
      if Wrap(half, d) > half {
        assert !SoundGrant(half, tail, my, want, over);
      }
    }
  }

  /** The test of a ticket that leads grants it exactly if the residue of its lead is more
      than half a turn. */
  lemma FarTest(half: nat, tail: nat, my: nat, over: nat)
    requires half > 0 && Lead(tail, my, over) > 0
    ensures CircularLess(half, 0, Wrap(half, tail - (my - over))) <==> Wrap(half, Lead(tail, my, over)) > half
  {
    var d: int, m: int := Lead(tail, my, over), 2 * half;
    var q := Turns(d, 2 * half);
    var r: int := Wrap(half, d);
    if r == 0 {
      WrapUnique(half, -d, -q, 0);
      WrapUnique(half, 0, 0, 0);
    } else {
      assert -d == (-q - 1) * m + (m - r);
      WrapUnique(half, -d, -q - 1, m - r);
      WrapUnique(half, r - m, -1, r);
    }
  }

  /** The test either refuses or grants no more than what is published. */
  predicate SoundGrant(half: nat, tail: nat, my: nat, want: nat, over: nat)
    requires half > 0
  {
    var next := Decide(half, tail, my, want, over);
    !next.Miss? ==> WonWeight()(next) <= -Lead(tail, my, over)
  }

  /** With a single consumer, as in the event loop, every run is timely: its reading of
      the overcommits is always current. */
  lemma OneConsumerIsTimely(half: nat, states: seq<State>, actions: seq<Action>)
    requires half > 0 && IsRun(half, states, actions) && |states[0].pcs| == 1
    ensures IsTimelyRun(half, states, actions)
  {
    forall i | 0 <= i < |states| ensures Timely(half, states[i]) {
      var _ := OneConsumerInv(half, states, actions, i);
    }
  }

  /** The only consumer's reading is current, its tickets are the last ones drawn, and
      its claim ends at the head. */
  predicate OwnReading(s: State, pc: Pc) {
    match pc
    case Test(_, _, over) => over == s.over
    case Draw(_, over) => over == s.over
    case Drawn(my, want, over) => over == s.over && my + want == s.opt
    case Claimed(first, count) => first + count == s.head
    case _ => true
  }

  predicate Sole(s: State) {
    |s.pcs| == 1 && OwnReading(s, s.pcs[0])
  }

  lemma StepSole(half: nat, s: State, a: Action)
    requires half > 0 && Sole(s) && Enabled(s, a)
    ensures Sole(Apply(half, s, a))
  {
    hide Rem, Wrap;
  }

  lemma {:induction false} OneConsumerInv(half: nat, states: seq<State>, actions: seq<Action>, i: nat) returns (log: seq<Verdict>)
    requires half > 0 && IsRun(half, states, actions) && |states[0].pcs| == 1 && i < |states|
    ensures Inv(states[i], log) && Ledger(states[i]) && Sole(states[i]) && Timely(half, states[i])
  {
    if i == 0 {
      InitialInv(1);
      InitialLedger(1);
      log := [];
    } else {
      log := OneConsumerInv(half, states, actions, i - 1);
      var s, a := states[i - 1], actions[i - 1];
      assert IsStep(half, s, a, states[i]);
      hide Inv, Ledger, Sole, Timely, Enabled, Apply;
      StepInv(half, s, log, a);
      StepLedger(half, s, a);
      StepSole(half, s, a);
      log := LogAfter(half, s, log, a);
      SoleIsTimely(half, states[i], log);
    }
  }

  /** The only consumer's tickets start where the head is. */
  lemma SoleIsTimely(half: nat, s: State, log: seq<Verdict>)
    requires Inv(s, log) && Ledger(s) && Sole(s)
    ensures Timely(half, s)
  {
    HeadNeverPassesTail(s, log);
    assert s.pcs == [s.pcs[0]];
    SumConstant(s.pcs, FlightWeight(), FlightWeight()(s.pcs[0]));
  }

  // ------------------------------------------------------------------ three consumers suffice for an overrun

  /** Some run of `threads` consumers leads to `s`. */
  ghost predicate Reachable(half: nat, threads: nat, s: State)
    requires half > 0
  {
    exists states, actions :: IsRun(half, states, actions) && states[0] == Initial(threads) && states[|actions|] == s
  }

  lemma StartReachable(half: nat, threads: nat)
    requires half > 0
    ensures Reachable(half, threads, Initial(threads))
  {
    assert IsRun(half, [Initial(threads)], []);
  }

  lemma StepReachable(half: nat, threads: nat, s: State, a: Action)
    requires half > 0 && Reachable(half, threads, s) && Enabled(s, a)
    ensures Reachable(half, threads, Apply(half, s, a))
  {
    var states, actions :| IsRun(half, states, actions) && states[0] == Initial(threads) && states[|actions|] == s;
    var states', actions' := states + [Apply(half, s, a)], actions + [a];
    forall i | 0 <= i < |actions'| ensures IsStep(half, states'[i], actions'[i], states'[i + 1]) {
      assert i < |actions| ==> IsStep(half, states[i], actions[i], states[i + 1]);
    }
    assert IsRun(half, states', actions');
  }

  /** Any consumer can get past the first test when one element more is published than
      tickets account for. */
  lemma PassesTest(half: nat, threads: nat, s: State, t: nat)
    requires half > 1 && Reachable(half, threads, s) && t < |s.pcs| && s.pcs[t] == Idle
    requires s.tail == s.opt - s.over + 1
    ensures Reachable(half, threads, SetPc(s, t, Draw(1, s.over)))
  {
    hide Reachable, Rem, Wrap;
    var s1 := SetPc(s, t, LoadTail(1));
    var s2, s3, s4 := SetPc(s1, t, LoadOver(1, s.tail)), SetPc(s, t, Test(1, s.tail, s.over)), SetPc(s, t, Draw(1, s.over));
    StepReachable(half, threads, s, Call(t, 1));
    StepReachable(half, threads, s1, Run(t));
    assert Advance(half, s2, t) == s3;
    StepReachable(half, threads, s2, Run(t));
    WrapUnique(half, 1, 0, 1);
    WrapUnique(half, -1, -1, 2 * half - 1);
    assert Advance(half, s3, t) == s4;
    StepReachable(half, threads, s3, Run(t));
  }

  /** One consumer has read the overcommits before all others and waits to draw its ticket;
      the others have since emptied the queue `k` times, at one overcommit each time. */
  function Waiting(k: nat, tail: nat): State {
    State(tail, k, 2 * k, k, [Draw(1, 0), Idle, Idle])
  }

  /** Two consumers contend for one element: both pass the first test, one takes the
      element and the other's ticket becomes an overcommit. */
  lemma Contend(half: nat, k: nat)
    requires half > 1 && Reachable(half, 3, Waiting(k, k + 1))
    ensures Reachable(half, 3, Waiting(k + 1, k + 1))
  {
    hide Reachable, Rem, Wrap;
    var w := Draw(1, 0);
    var s := Waiting(k, k + 1);
    PassesTest(half, 3, s, 1);
    s := SetPc(s, 1, Draw(1, k));
    PassesTest(half, 3, s, 2);
    s := SetPc(s, 2, Draw(1, k));
    StepReachable(half, 3, s, Run(1));
    s := State(k + 1, k, 2 * k + 1, k, [w, Drawn(2 * k, 1, k), Draw(1, k)]);
    StepReachable(half, 3, s, Run(2));
    s := State(k + 1, k, 2 * k + 2, k, [w, Drawn(2 * k, 1, k), Drawn(2 * k + 1, 1, k)]);
    WrapUnique(half, 1, 0, 1);
    WrapUnique(half, -1, -1, 2 * half - 1);
    StepReachable(half, 3, s, Run(1));
    s := State(k + 1, k, 2 * k + 2, k, [w, Take(1), Drawn(2 * k + 1, 1, k)]);
    StepReachable(half, 3, s, Run(1));
    s := State(k + 1, k + 1, 2 * k + 2, k, [w, Claimed(k, 1), Drawn(2 * k + 1, 1, k)]);
    StepReachable(half, 3, s, Finish(1));
    s := State(k + 1, k + 1, 2 * k + 2, k, [w, Idle, Drawn(2 * k + 1, 1, k)]);
    WrapUnique(half, 0, 0, 0);
    StepReachable(half, 3, s, Run(2));
    s := State(k + 1, k + 1, 2 * k + 2, k, [w, Idle, Miss(1)]);
    assert Advance(half, s, 2) == Waiting(k + 1, k + 1);
    StepReachable(half, 3, s, Run(2));
  }

  lemma {:induction false} WaitingReachable(half: nat, k: nat)
    requires half > 1 && k > 0
    ensures Reachable(half, 3, Waiting(k, k))
  {
    hide Reachable, Rem, Wrap;
    if k == 1 {
      var s := Initial(3);
      StartReachable(half, 3);
      StepReachable(half, 3, s, Publish(1));
      s := s.(tail := 1);
      PassesTest(half, 3, s, 0);
      assert SetPc(s, 0, Draw(1, 0)) == Waiting(0, 1);
    } else {
      WaitingReachable(half, k - 1);
      StepReachable(half, 3, Waiting(k - 1, k - 1), Publish(1));
    }
    Contend(half, k - 1);
  }

  /** The state after the waiting consumer has drawn its ticket and been granted it. */
  function Overrun(n: nat): State {
    State(n, n + 1, 2 * n + 1, n, [Claimed(n, 1), Idle, Idle])
  }

  /** The waiting consumer draws a ticket that leads by more than half a turn, and is
      granted it. */
  lemma LateGrant(half: nat)
    requires half > 1
    ensures Decide(half, half + 1, 2 * (half + 1), 1, 0) == Take(1)
  {
    hide Rem, Wrap;
    var n := half + 1;
    WrapUnique(half, -n, -1, half - 1);
    WrapUnique(half, 1 - half, -1, half + 1);
  }

  lemma OverrunReachable(half: nat)
    requires half > 1
    ensures Reachable(half, 3, Overrun(half + 1))
  {
    hide Reachable, Decide;
    var n := half + 1;
    WaitingReachable(half, n);
    LateGrant(half);
    var s := Waiting(n, n);
    StepReachable(half, 3, s, Run(0));
    s := State(n, n, 2 * n + 1, n, [Drawn(2 * n, 1, 0), Idle, Idle]);
    StepReachable(half, 3, s, Run(0));
    s := State(n, n, 2 * n + 1, n, [Take(1), Idle, Idle]);
    assert Advance(half, s, 0) == Overrun(n);
    StepReachable(half, 3, s, Run(0));
  }

  /** Without timeliness the guarantee is false, whatever the width of the indices and
      with three consumers: some run ends with headIndex beyond tailIndex and a consumer
      holding an element that was never published. */
  lemma UntimelyOverrun(half: nat) returns (states: seq<State>, actions: seq<Action>)
    requires half > 1
    ensures IsRun(half, states, actions) && states[0] == Initial(3)
    ensures var last := states[|actions|];
            last.head > last.tail && |last.pcs| == 3 && last.pcs[0].Claimed? && last.pcs[0].first >= last.tail
  {
    OverrunReachable(half);
    hide Initial, IsStep;
    states, actions :| IsRun(half, states, actions) && states[0] == Initial(3) && states[|actions|] == Overrun(half + 1);
  }

  // ------------------------------------------------------------------ a call with nothing else in flight

  /** The state after consumer `t` runs a whole call by itself. */
  function Solo(half: nat, s: State, t: nat, max: nat): State
    requires half > 0 && t < |s.pcs| && s.pcs[t] == Idle && max > 0
  {
    var s3 := Advance(half, Advance(half, Advance(half, Apply(half, s, Call(t, max)), t), t), t);
    if s3.pcs[t] == Idle then s3
    else
      var s5 := Advance(half, Advance(half, s3, t), t);
      Advance(half, if s5.pcs[t].Short? then Advance(half, s5, t) else s5, t)
  }

  /** With nothing in flight a call takes elements exactly when there are any: as many
      as asked for or all of them. */
  lemma SoloTakes(half: nat, s: State, t: nat, max: nat)
    requires half > 0 && t < |s.pcs| && s.pcs[t] == Idle && max > 0
    requires Ledger(s) && InFlight(s) == 0
    requires s.head <= s.tail < s.head + half
    ensures var n := Min(max, s.tail - s.head);
            Solo(half, s, t, max) ==
            if n == 0 then s
            else s.(head := s.head + n, opt := s.opt + n, pcs := s.pcs[t := Claimed(s.head, n)])
  {
    var d: int := s.tail - s.head;
    WrapUnique(half, s.tail - (s.opt - s.over), 0, d);
    if d == 0 {
      WrapUnique(half, 0, 0, 0);
      assert s.pcs[t := Idle] == s.pcs;
    } else {
      WrapUnique(half, 0 - d, -1, 2 * half - d);
    }
  }
}
