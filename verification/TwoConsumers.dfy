/** How many consumers the ticket protocol is safe for whatever they do: with two the
    condition of Tickets.Timely always holds, with three it can fail. The argument for two:
    while one of them sits on its reading of the overcommits, the other runs alone, and a
    consumer that runs alone loses tickets only to the wrap-around of the index. */
module TwoConsumers {
  import opened Basics
  import opened Circular
  import opened Tally
  import opened Tickets

  // ------------------------------------------------------------------ windows of the index

  /** Turns of the index, counted from half a turn before each: as long as the number of
      waiting elements stays in one window the tests of a lone consumer do not flip. */
  function Window(half: nat, n: nat): nat
    requires half > 0
  {
    Quot(n + half, 2 * half)
  }

  /** What a lone consumer can have lost by the time that many elements wait: less than half
      a turn in the call it was in, and as much again for each window left behind. */
  function Slack(half: nat, n: nat): (r: nat)
    requires half > 0
    ensures r >= half - 1
  {
    SlackOf(half - 1, Window(half, n))
  }

  function SlackOf(k: nat, windows: nat): (r: nat)
    ensures r >= k
  {
    if windows == 0 then k else SlackOf(k, windows - 1) + k
  }

  lemma {:induction false} SlackOfIs(k: nat, windows: nat)
    ensures SlackOf(k, windows) == windows * k + k
  {
    if windows > 0 {
      SlackOfIs(k, windows - 1);
      Distribute(windows - 1, 1, k);
    }
  }

  lemma WindowBounds(half: nat, n: nat)
    requires half > 0
    ensures Window(half, n) * (2 * half) <= n + half < Window(half, n) * (2 * half) + 2 * half
  {
    QuotRem(n + half, 2 * half);
  }

  lemma SlackGrows(half: nat, m: nat, n: nat)
    requires half > 0 && m <= n
    ensures Window(half, m) <= Window(half, n) && Slack(half, m) <= Slack(half, n)
    ensures Window(half, m) < Window(half, n) ==> Slack(half, m) + half - 1 <= Slack(half, n)
  {
    hide Quot;
    var v: int, w: int := Window(half, m), Window(half, n);
    WindowBounds(half, m);
    WindowBounds(half, n);
    Distribute(w - v, v, 2 * half);
    NegativeTurns(w - v, 2 * half);
    SlackOfIs(half - 1, v);
    SlackOfIs(half - 1, w);
    Distribute(w - v, v, half - 1);
    if w > v {
      Distribute(w - v - 1, 1, half - 1);
      NegativeTurns(w - v - 1, half - 1);
    }
  }

  /** No more is lost than is waiting, but for less than half a turn. */
  lemma SlackIsSmall(half: nat, n: nat)
    requires half > 0
    ensures Slack(half, n) <= n + half - 1
  {
    hide Quot;
    var w: int := Window(half, n);
    WindowBounds(half, n);
    SlackOfIs(half - 1, w);
    assert w * (2 * half) == w * (half - 1) + w * (half + 1);
    if w > 0 {
      assert w * (half + 1) >= half + 1;
    }
  }

  /** In the first half of a turn the residue is what lies beyond the turns. */
  lemma Residue(half: nat, n: nat)
    requires half > 0 && Wrap(half, n) < half
    ensures n == Window(half, n) * (2 * half) + Wrap(half, n)
  {
    var q := Turns(n, 2 * half);
    NegativeTurns(q + 1, 2 * half);
    Distribute(q, 1, 2 * half);
    if q < 0 { NegativeTurns(q, 2 * half); assert false; }
    QuotUnique(n + half, 2 * half, q);
  }

  /** `w` more tickets than were lost before still leave the lead below half a turn. */
  lemma SlackWithTickets(half: nat, n: nat, w: nat)
    requires half > 0 && w <= Wrap(half, n) < half
    ensures Slack(half, n) + w <= n + half - 1
  {
    hide Quot, Rem;
    var v: int := Window(half, n);
    Residue(half, n);
    SlackOfIs(half - 1, v);
    assert v * (2 * half) == v * (half - 1) + v * (half + 1);
    NegativeTurns(v, half + 1);
  }

  /** While the waiting elements stay in the window of `m` there is an element for each
      ticket; taking elements of the last turn stays in the window. */
  lemma SameWindow(half: nat, m: nat, n: nat)
    requires half > 0 && m <= n && Wrap(half, m) < half && Window(half, m) == Window(half, n)
    ensures Wrap(half, m) <= Wrap(half, n) < half
  {
    hide Quot, Rem;
    var v: int := Window(half, m);
    Residue(half, m);
    WindowBounds(half, n);
    WrapUnique(half, n, v, n - v * (2 * half));
  }

  lemma TakenInWindow(half: nat, n: nat, take: nat)
    requires half > 0 && take <= Wrap(half, n) < half
    ensures take <= n && Window(half, n - take) == Window(half, n) && Slack(half, n - take) == Slack(half, n)
  {
    hide Quot, Rem;
    var v: int := Window(half, n);
    Residue(half, n);
    NegativeTurns(v, 2 * half);
    QuotUnique(n - take + half, 2 * half, v);
  }

  // ------------------------------------------------------------------ the other consumer

  /** It has read the overcommits and not yet drawn. */
  predicate Holding(pc: Pc) {
    pc.Test? || pc.Draw?
  }

  /** Its tickets were sought alone, when `n` elements or fewer were waiting. */
  ghost predicate Backed(half: nat, lost: nat, w: nat, n: nat)
    requires half > 0
  {
    exists m: nat :: m <= n && w <= Wrap(half, m) < half && lost <= Slack(half, m)
  }

  /** Where the other consumer can be while one holds the reading `r`: what has been lost
      since then, and what it may yet lose, stays within bounds. */
  ghost predicate Bounded(half: nat, s: State, r: nat, pc: Pc)
    requires half > 0
  {
    && r <= s.over && s.head <= s.tail
    && var lost, n := s.over - r, s.tail - s.head;
       match pc
       case LoadOver(_, tail) => lost == 0 || (s.head <= tail <= s.tail && lost <= Slack(half, tail - s.head))
       case Test(_, tail, over) => lost == 0 || (s.head <= tail <= s.tail && over == s.over && lost <= Slack(half, tail - s.head))
       case Draw(w, over) => lost == 0 || (over == s.over && Backed(half, lost, w, n))
       case Drawn(my, w, over) => lost == 0 || (over == s.over && my + w == s.opt && Backed(half, lost, w, n))
       case Short(take, lack) => take <= n && lost + lack <= Slack(half, n - take)
       case Take(take) => take <= n && lost <= Slack(half, n - take)
       case Miss(lack) => lost + lack <= Slack(half, n)
       case _ => lost <= Slack(half, n)
  }

  /** Then the lead of the ticket about to be drawn is below half a turn. */
  lemma BoundedLead(half: nat, s: State, r: nat, pc: Pc)
    requires half > 0 && Bounded(half, s, r, pc) && SmallPc(half, pc)
    ensures s.head + s.over + FlightWeight()(pc) - r <= s.tail + half - 1
  {
    hide Slack, Rem, Wrap;
    var lost, n: nat := s.over - r, s.tail - s.head;
    match pc
    case LoadOver(_, tail) => if lost > 0 { SlackIsSmall(half, tail - s.head); }
    case Test(_, tail, _) => if lost > 0 { SlackIsSmall(half, tail - s.head); }
    case Draw(w, _) => if lost > 0 { var m: nat :| m <= n && w <= Wrap(half, m) < half && lost <= Slack(half, m); SlackIsSmall(half, m); }
    case Drawn(_, w, _) => if lost > 0 { var m: nat :| m <= n && w <= Wrap(half, m) < half && lost <= Slack(half, m); SlackWithTickets(half, m, w); }
    case Short(take, _) => SlackIsSmall(half, n - take);
    case Take(take) => SlackIsSmall(half, n - take);
    case _ => SlackIsSmall(half, n);
  }

  /** A reading just made bounds whatever the other consumer is at. */
  lemma BoundedAtFirst(half: nat, s: State, pc: Pc)
    requires half > 0 && SmallPc(half, pc) && s.head <= s.tail && WonWeight()(pc) <= s.tail - s.head
    ensures Bounded(half, s, s.over, pc)
  {
    hide Slack;
  }

  lemma BoundedPublish(half: nat, s: State, r: nat, pc: Pc, k: nat)
    requires half > 0 && Bounded(half, s, r, pc)
    ensures Bounded(half, s.(tail := s.tail + k), r, pc)
  {
    hide Slack, Rem, Wrap;
    var n: nat := s.tail - s.head;
    SlackGrows(half, n, n + k);
    if pc.Short? || pc.Take? { SlackGrows(half, n - pc.take, n + k - pc.take); }
  }

  /** The bounds depend on the counters alone, but for tickets sought alone. */
  lemma BoundedSame(half: nat, s: State, s': State, r: nat, pc: Pc)
    requires half > 0 && Bounded(half, s, r, pc)
    requires s'.tail == s.tail && s'.head == s.head && s'.over == s.over && s'.opt == s.opt
    ensures Bounded(half, s', r, pc)
  {
    hide Slack;
  }

  /** A call made alone draws no more tickets than the last turn has elements. */
  lemma TestAlone(half: nat, s: State, r: nat, pc: Pc)
    requires half > 0 && pc.Test? && Bounded(half, s, r, pc) && s.over > r && s.opt == s.head + s.over
    ensures var desired := Wrap(half, pc.tail - (s.opt - pc.over));
            CircularLess(half, 0, desired) ==> Backed(half, s.over - r, Min(desired, pc.max), s.tail - s.head)
    ensures s.over - r <= Slack(half, s.tail - s.head)
  {
    hide Slack, Rem, Wrap;
    var m: nat := pc.tail - s.head;
    CircularLessExact(half, 0, Wrap(half, m));
    SlackGrows(half, m, s.tail - s.head);
  }

  /** When tickets sought alone are decided, they are all granted, or the waiting elements
      have grown into the next window. */
  lemma DecideAlone(half: nat, s: State, r: nat, pc: Pc)
    requires half > 1 && pc.Drawn? && Bounded(half, s, r, pc) && pc.want > 0 && SmallPc(half, pc)
    requires s.over > r && s.opt == s.head + s.over + pc.want
    ensures Bounded(half, s, r, Decide(half, s.tail, pc.my, pc.want, pc.over))
  {
    hide Slack, Rem, Wrap, Window;
    var lost: nat, n: nat, w := s.over - r, s.tail - s.head, pc.want;
    var m: nat :| m <= n && w <= Wrap(half, m) < half && lost <= Slack(half, m);
    assert s.tail - (pc.my - pc.over) == n;
    SlackGrows(half, m, n);
    CircularLessExact(half, 0, Wrap(half, n));
    if Window(half, m) == Window(half, n) {
      SameWindow(half, m, n);
      TakenInWindow(half, n, w);
    } else if 0 < Wrap(half, n) < half {
      TakenInWindow(half, n, Min(w, Wrap(half, n)));
    }
  }

  // ------------------------------------------------------------------ two consumers

  ghost predicate Pair(half: nat, s: State, log: seq<Verdict>)
    requires half > 0
  {
    && |s.pcs| == 2 && Inv(s, log) && Ledger(s) && Small(half, s) && Timely(half, s)
    && (Holding(s.pcs[0]) ==> Bounded(half, s, s.pcs[0].over, s.pcs[1]))
    && (Holding(s.pcs[1]) ==> Bounded(half, s, s.pcs[1].over, s.pcs[0]))
  }

  /** One consumer's step keeps the bounds under which the other holds its reading. */
  lemma StepBounded(half: nat, s: State, r: nat, pc: Pc, s': State, pc': Pc)
    requires half > 1 && Bounded(half, s, r, pc) && SmallPc(half, pc)
    requires s.opt == s.head + s.over + FlightWeight()(pc) && (pc.Drawn? ==> pc.want > 0)
    requires s'.head <= s'.tail && WonWeight()(pc') <= s'.tail - s'.head && SmallPc(half, pc')
    requires Moves(half, s, pc, s', pc')
    ensures Bounded(half, s', r, pc')
  {
    hide Slack, Rem, Wrap, Decide, CircularLess;
    match pc
    case LoadTail(_) =>
    case Test(max, tail, over) =>
      if s.over > r { TestAlone(half, s, r, pc); }
    case Drawn(my, want, over) =>
      DecideKind(half, s.tail, my, want, over);
      if s.over > r { DecideAlone(half, s, r, pc); BoundedSame(half, s, s', r, pc'); }
    case _ =>
  }

  lemma DecideKind(half: nat, tail: nat, my: nat, want: nat, over: nat)
    requires half > 0
    ensures var next := Decide(half, tail, my, want, over); next.Short? || next.Take? || next.Miss?
  {
  }

  /** A consumer's step as it changes the counters and its own place. */
  predicate Moves(half: nat, s: State, pc: Pc, s': State, pc': Pc)
    requires half > 0
  {
    && s'.tail == s.tail
    && match pc
       case Idle => pc'.LoadTail? && s'.(pcs := s.pcs) == s
       case LoadTail(max) => pc' == LoadOver(max, s.tail) && s'.(pcs := s.pcs) == s
       case LoadOver(max, tail) => pc' == Test(max, tail, s.over) && s'.(pcs := s.pcs) == s
       case Test(max, tail, over) =>
         var desired := Wrap(half, tail - (s.opt - over));
         pc' == (if CircularLess(half, 0, desired) then Draw(Min(desired, max), over) else Idle) && s'.(pcs := s.pcs) == s
       case Draw(want, over) => pc' == Drawn(s.opt, want, over) && s'.(pcs := s.pcs) == s.(opt := s.opt + want)
       case Drawn(my, want, over) => pc' == Decide(half, s.tail, my, want, over) && s'.(pcs := s.pcs) == s
       case Short(take, lack) => pc' == Take(take) && s'.(pcs := s.pcs) == s.(over := s.over + lack)
       case Take(take) => pc' == Claimed(s.head, take) && s'.(pcs := s.pcs) == s.(head := s.head + take)
       case Miss(lack) => pc' == Idle && s'.(pcs := s.pcs) == s.(over := s.over + lack)
       case Claimed(_, _) => pc' == Idle && s'.(pcs := s.pcs) == s
  }

  lemma StepMoves(half: nat, s: State, a: Action)
    requires half > 0 && Enabled(s, a) && !a.Publish?
    ensures var s' := Apply(half, s, a); a.t < |s'.pcs| && s'.pcs == s.pcs[a.t := s'.pcs[a.t]] && Moves(half, s, s.pcs[a.t], s', s'.pcs[a.t])
  {
    hide Rem, Wrap, CircularLess, Decide;
  }

  lemma Flight(s: State, t: nat)
    requires |s.pcs| == 2 && t < 2 && Ledger(s)
    ensures s.opt == s.head + s.over + FlightWeight()(s.pcs[t]) + FlightWeight()(s.pcs[1 - t])
  {
    assert s.pcs[..1] == [s.pcs[0]];
    SumConstant(s.pcs[..1], FlightWeight(), FlightWeight()(s.pcs[0]));
  }

  /** Grants are covered by what is waiting. */
  lemma Waits(s: State, log: seq<Verdict>, t: nat)
    requires Inv(s, log) && t < |s.pcs|
    ensures s.head <= s.tail && WonWeight()(s.pcs[t]) <= s.tail - s.head && PcInv(s, log, s.pcs[t])
  {
    HeadNeverPassesTail(s, log);
    SumAtLeast(s.pcs, WonWeight(), t);
  }

  lemma PairPublish(half: nat, s: State, log: seq<Verdict>, k: nat)
    requires half > 1 && Pair(half, s, log)
    ensures Pair(half, Apply(half, s, Publish(k)), log)
  {
    hide Inv, Ledger, Small, Bounded, Sum, Rem, Timely;
    StepInv(half, s, log, Publish(k));
    StepLedger(half, s, Publish(k));
    StepSmall(half, s, Publish(k));
    if Holding(s.pcs[0]) { BoundedPublish(half, s, s.pcs[0].over, s.pcs[1], k); }
    if Holding(s.pcs[1]) { BoundedPublish(half, s, s.pcs[1].over, s.pcs[0], k); }
    TimelyPublish(half, s, k);
  }

  lemma TimelyPublish(half: nat, s: State, k: nat)
    requires Timely(half, s)
    ensures Timely(half, s.(tail := s.tail + k))
  {
  }

  /** The bounds on both sides after consumer `t`, of two, has moved. */
  lemma PairMoves(half: nat, s: State, log: seq<Verdict>, s': State, log': seq<Verdict>, t: nat)
    requires half > 1 && Pair(half, s, log) && t < 2
    requires Inv(s', log') && Small(half, s') && |s'.pcs| == 2 && s'.pcs[1 - t] == s.pcs[1 - t]
    requires Moves(half, s, s.pcs[t], s', s'.pcs[t])
    ensures Holding(s.pcs[1 - t]) ==> Bounded(half, s', s.pcs[1 - t].over, s'.pcs[t])
    ensures Holding(s'.pcs[t]) ==> Bounded(half, s', s'.pcs[t].over, s.pcs[1 - t])
    ensures s'.pcs[t].Drawn? ==> s'.pcs[t].my - s'.pcs[t].over <= s'.tail + half
  {
    var u, pc, pc' := 1 - t, s.pcs[t], s'.pcs[t];
    Waits(s', log', t);
    Waits(s', log', u);
    Flight(s, t);
    assert SmallPc(half, pc) && SmallPc(half, pc') && SmallPc(half, s.pcs[u]);
    hide Inv, Ledger, Small, SmallPc, Bounded, Sum, Timely, PcInv, Moves;
    if Holding(s.pcs[u]) {
      DrawnWants(s, log, t);
      assert FlightWeight()(s.pcs[u]) == 0;
      StepBounded(half, s, s.pcs[u].over, pc, s', pc');
    }
    OwnMove(half, s, s.pcs[u], s', pc, pc');
  }

  /** The consumer that moves: its reading is new, or as before; and if it draws, its lead is
      small. */
  lemma OwnMove(half: nat, s: State, other: Pc, s': State, pc: Pc, pc': Pc)
    requires half > 1 && Moves(half, s, pc, s', pc') && SmallPc(half, other)
    requires Holding(pc) ==> Bounded(half, s, pc.over, other)
    requires s.opt == s.head + s.over + FlightWeight()(pc) + FlightWeight()(other)
    requires s'.head <= s'.tail && WonWeight()(other) <= s'.tail - s'.head
    ensures Holding(pc') ==> Bounded(half, s', pc'.over, other)
    ensures pc'.Drawn? ==> pc'.my - pc'.over <= s'.tail + half
  {
    hide Bounded, Rem, Wrap, CircularLess, Decide, SmallPc;
    if pc.LoadOver? {
      BoundedAtFirst(half, s', other);
    } else if pc.Test? && pc'.Draw? {
      BoundedSame(half, s, s', pc.over, other);
    } else if pc.Draw? {
      BoundedLead(half, s, pc.over, other);
    } else if pc.Drawn? {
      DecideKind(half, s.tail, pc.my, pc.want, pc.over);
    }
  }

  lemma DrawnWants(s: State, log: seq<Verdict>, t: nat)
    requires Inv(s, log) && t < |s.pcs|
    ensures s.pcs[t].Drawn? ==> s.pcs[t].want > 0
  {
    assert PcInv(s, log, s.pcs[t]);
  }

  lemma StepPair(half: nat, s: State, log: seq<Verdict>, a: Action)
    requires half > 1 && Pair(half, s, log) && Enabled(s, a)
    ensures Pair(half, Apply(half, s, a), LogAfter(half, s, log, a))
  {
    hide Inv, Ledger, Small, Bounded, Sum, Rem, Wrap, Settle, CircularLess, Decide;
    if a.Publish? {
      PairPublish(half, s, log, a.k);
    } else {
      var s', log' := Apply(half, s, a), LogAfter(half, s, log, a);
      StepInv(half, s, log, a);
      StepLedger(half, s, a);
      StepSmall(half, s, a);
      StepMoves(half, s, a);
      hide Apply, LogAfter, Moves, Advance;
      PairMoves(half, s, log, s', log', a.t);
      assert s'.tail >= s.tail by { TailKept(half, s, a); }
    }
  }

  lemma TailKept(half: nat, s: State, a: Action)
    requires half > 0 && Enabled(s, a)
    ensures Apply(half, s, a).tail >= s.tail
  {
  }

  lemma InitialPair(half: nat)
    requires half > 1
    ensures Pair(half, Initial(2), [])
  {
    hide Inv, Ledger, Rem, Wrap, CircularLess, Sum, Bounded, Backed;
    InitialInv(2);
    InitialLedger(2);
    assert Initial(2).pcs == [Idle, Idle];
  }

  lemma {:induction false} TwoConsumersInv(half: nat, states: seq<State>, actions: seq<Action>, i: nat) returns (log: seq<Verdict>)
    requires half > 1 && IsRun(half, states, actions) && states[0] == Initial(2) && i < |states|
    ensures Pair(half, states[i], log)
  {
    hide Pair, Apply, Enabled;
    if i == 0 {
      InitialPair(half);
      log := [];
    } else {
      log := TwoConsumersInv(half, states, actions, i - 1);
      assert IsStep(half, states[i - 1], actions[i - 1], states[i]);
      StepPair(half, states[i - 1], log, actions[i - 1]);
      log := LogAfter(half, states[i - 1], log, actions[i - 1]);
    }
  }

  // ------------------------------------------------------------------ three or more

  function Pad(s: State, k: nat): State {
    s.(pcs := s.pcs + seq(k, _ => Idle))
  }

  lemma PadStep(half: nat, s: State, a: Action, k: nat)
    requires half > 0 && Enabled(s, a)
    ensures Enabled(Pad(s, k), a) && Apply(half, Pad(s, k), a) == Pad(Apply(half, s, a), k)
  {
    hide Rem, Wrap, CircularLess, Decide;
  }

  /** More consumers, who do nothing, change nothing. */
  lemma PadRun(half: nat, states: seq<State>, actions: seq<Action>, n: nat, k: nat) returns (padded: seq<State>)
    requires half > 0 && IsRun(half, states, actions) && states[0] == Initial(n)
    ensures IsRun(half, padded, actions) && padded[0] == Initial(n + k)
    ensures forall i :: 0 <= i < |states| ==> padded[i] == Pad(states[i], k)
  {
    hide Apply, Enabled;
    padded := seq(|states|, i requires 0 <= i < |states| => Pad(states[i], k));
    assert padded[0] == Initial(n + k);
    forall i | 0 <= i < |actions| ensures IsStep(half, padded[i], actions[i], padded[i + 1]) {
      assert IsStep(half, states[i], actions[i], states[i + 1]);
      PadStep(half, states[i], actions[i], k);
    }
  }

  // ------------------------------------------------------------------ the threshold

  ghost predicate HeadStaysBehind(states: seq<State>) {
    forall i :: 0 <= i < |states| ==> states[i].head <= states[i].tail
  }

  ghost predicate AlwaysSafe(half: nat, n: nat)
    requires half > 0
  {
    forall states, actions :: IsRun(half, states, actions) && states[0] == Initial(n) ==> HeadStaysBehind(states)
  }

  /** With at most two consumers every run is timely, so that all that Tickets proves of
      timely runs holds of every run. */
  lemma FewConsumersAreTimely(half: nat, states: seq<State>, actions: seq<Action>, n: nat)
    requires half > 1 && IsRun(half, states, actions) && states[0] == Initial(n) && n <= 2
    ensures IsTimelyRun(half, states, actions)
  {
    if n == 1 {
      OneConsumerIsTimely(half, states, actions);
    } else {
      forall i | 0 <= i < |states| ensures Timely(half, states[i]) {
        if n == 2 {
          var _ := TwoConsumersInv(half, states, actions, i);
        } else {
          NoConsumers(half, states, actions, i);
        }
      }
    }
  }

  lemma {:induction false} NoConsumers(half: nat, states: seq<State>, actions: seq<Action>, i: nat)
    requires half > 0 && IsRun(half, states, actions) && states[0] == Initial(0) && i < |states|
    ensures states[i].pcs == []
  {
    if i > 0 {
      NoConsumers(half, states, actions, i - 1);
      assert IsStep(half, states[i - 1], actions[i - 1], states[i]);
    }
  }

  /** Whatever the width of the indices, headIndex stays behind tailIndex in every run of `n`
      consumers if and only if there are at most two of them. */
  lemma SafeIffAtMostTwo(half: nat, n: nat)
    requires half > 1
    ensures AlwaysSafe(half, n) <==> n <= 2
  {
    hide IsStep, Initial;
    if n <= 2 {
      forall states: seq<State>, actions: seq<Action> | IsRun(half, states, actions) && states[0] == Initial(n) ensures HeadStaysBehind(states) {
        FewConsumersAreTimely(half, states, actions, n);
        forall i | 0 <= i < |states| ensures states[i].head <= states[i].tail {
          var log := RunInv(half, states, actions, i);
          HeadNeverPassesTail(states[i], log);
        }
      }
    } else {
      var states, actions := UntimelyOverrun(half);
      var padded := PadRun(half, states, actions, 3, n - 3);
      LastOf(half, states, actions, padded);
      assert !HeadStaysBehind(padded);
    }
  }

  lemma LastOf(half: nat, states: seq<State>, actions: seq<Action>, padded: seq<State>)
    requires half > 0 && IsRun(half, states, actions) && IsRun(half, padded, actions)
    requires forall i :: 0 <= i < |states| ==> padded[i].head == states[i].head && padded[i].tail == states[i].tail
    requires states[|actions|].head > states[|actions|].tail
    ensures padded[|actions|].head > padded[|actions|].tail && |actions| < |padded|
  {
  }
}
