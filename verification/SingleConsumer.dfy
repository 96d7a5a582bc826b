/** The queue as the event loop uses it, with one consumer: nothing is left of the
    condition that no thread falls behind. */
module SingleConsumer {
  import opened Basics
  import opened Circular
  import opened ProducerQueue
  import opened ProducerInvariant
  import opened ProducerEnqueuer
  import opened ProducerTheorems
  import opened ProducerRuns
  import Tally
  import Tickets
  import BlockIndex

  /** The tickets account for themselves, and the only consumer knows all of them. */
  ghost predicate TicketsAlone(cfg: Config, s: State)
    requires cfg.Valid()
  {
    Tickets.Ledger(s.tk) && Tickets.Sole(s.tk) && Tickets.Small(cfg.Half(), s.tk)
  }

  lemma StepTicketsAlone(cfg: Config, s: State, a: Action)
    requires cfg.Valid() && TicketsAlone(cfg, s) && Shape(s) && Enabled(cfg, s, a)
    ensures TicketsAlone(cfg, Apply(cfg, s, a))
  {
    hide Tickets.Ledger, Tickets.Sole, Tickets.Small, Tickets.Apply, Apply, Enabled, Shape;
    TicketsMove(cfg, s, a);
    if MovesTickets(s, a) {
      Tickets.StepLedger(cfg.Half(), s.tk, TicketAction(s, a));
      Tickets.StepSole(cfg.Half(), s.tk, TicketAction(s, a));
      Tickets.StepSmall(cfg.Half(), s.tk, TicketAction(s, a));
    }
  }

  /** The only consumer's claim ends at the head, and the producer stays within half a
      turn of the head: together less than a turn. */
  lemma AloneIsRecent(cfg: Config, s: State, g: Ghost)
    requires Inv(cfg, s, g) && TicketsAlone(cfg, s)
    ensures Recent(cfg, s)
  {
    Tickets.SoleIsTimely(cfg.Half(), s.tk, g.log);
    hide Quot, Rem, BlockIndex.Inv, Tickets.Inv, Tickets.Ledger, Tickets.Timely, Places, Counts, Retired, DoneSet, Data, Owners, EnqInv, Pow2;
    if s.enq.Insert? && Active(s.work[0]) {
      assert s.tk.pcs[0] == Tickets.Claimed(s.work[0].first, s.work[0].count);
      assert Tickets.SmallPc(cfg.Half(), s.tk.pcs[0]);
      BlockSizePositive(cfg);
      InsertRoom(cfg, s, g);
      WithinATurn(cfg.BlockSize(), cfg.Half(), s.enq.x, s.work[0].first, s.work[0].count);
    }
  }

  lemma WithinATurn(B: nat, half: nat, x: nat, first: nat, count: nat)
    requires B > 0 && count < half && x * B + B < first + count + half
    ensures (x - Quot(first, B)) * B < 2 * half
  {
    hide Quot;
    var l: int := Quot(first, B);
    OwnBlock(B, first);
    Distribute(x, -l, B);
  }

  lemma {:induction false} AloneInv(cfg: Config, states: seq<State>, actions: seq<Action>, i: nat) returns (g: Ghost)
    requires cfg.Valid() && IsAnyRun(cfg, states, actions) && |states[0].work| == 1 && i < |states|
    ensures Inv(cfg, states[i], g) && TicketsAlone(cfg, states[i]) && Recent(cfg, states[i])
    ensures g.stream == AllPublished(states, actions, i)
  {
    hide Inv, Shape, Recent, Enabled, Apply, Published, TicketsAlone;
    if i == 0 {
      var memory, threads: nat :| states[0] == Initial(cfg, memory, threads);
      g := InitialInv(cfg, memory, threads);
      InitialAlone(cfg, memory);
    } else {
      var g0 := AloneInv(cfg, states, actions, i - 1);
      assert IsAnyStep(cfg, states[i - 1], actions[i - 1], states[i]);
      g := StepInv(cfg, states[i - 1], g0, actions[i - 1]);
      StepTicketsAlone(cfg, states[i - 1], actions[i - 1]);
    }
    AloneIsRecent(cfg, states[i], g);
  }

  lemma InitialAlone(cfg: Config, memory: bool)
    requires cfg.Valid()
    ensures TicketsAlone(cfg, Initial(cfg, memory, 1))
  {
    Tickets.InitialLedger(1);
  }

  /** With one consumer every run is one of those that the theorems about producers and
      consumers speak of. */
  lemma OneConsumerIsRecent(cfg: Config, states: seq<State>, actions: seq<Action>)
    requires cfg.Valid() && IsAnyRun(cfg, states, actions) && |states[0].work| == 1
    ensures IsRun(cfg, states, actions)
  {
    hide Inv, Shape, Recent, Enabled, Apply, TicketsAlone;
    forall i | 0 <= i < |actions| ensures IsStep(cfg, states[i], actions[i], states[i + 1]) {
      var _ := AloneInv(cfg, states, actions, i);
      assert IsAnyStep(cfg, states[i], actions[i], states[i + 1]);
    }
  }

  // ------------------------------------------------------------------ what the consumer is given

  /** Everything handed out by the dequeues that returned in the first `i` steps, in order. */
  function AllTaken(states: seq<State>, actions: seq<Action>, i: nat): seq<Cell>
    requires i <= |actions| && i <= |states|
  {
    if i == 0 then [] else AllTaken(states, actions, i - 1) + Taken(states[i - 1], actions[i - 1])
  }

  function Taken(s: State, a: Action): seq<Cell> {
    if Returns(s, a) then s.work[a.t].got else []
  }

  /** The number of elements of the dequeues that have returned. */
  function Returned(s: State): nat
    requires |s.work| > 0
  {
    if Active(s.work[0]) then s.work[0].first else s.tk.head
  }

  lemma AloneAtHead(cfg: Config, s: State, g: Ghost)
    requires Inv(cfg, s, g) && TicketsAlone(cfg, s)
    ensures |s.work| == 1 && !s.work[0].Fault?
    ensures Active(s.work[0]) ==> s.work[0].first + s.work[0].count == s.tk.head
    ensures s.work[0].Done? ==> |s.work[0].got| == s.work[0].count
  {
    hide BlockIndex.Inv, Tickets.Inv, Counts, Retired, DoneSet, Data, Owners, EnqInv;
    assert PlaceInv(cfg.BlockSize(), s.work[0], s.ix.readers[0], g.m.live, g.done);
  }

  /** A claim starts at the head, and only a return ends one. */
  lemma ReturnedAfter(cfg: Config, s: State, a: Action)
    requires cfg.Valid() && Shape(s) && Enabled(cfg, s, a) && |s.work| == 1
    requires var w' := Apply(cfg, s, a).work; |w'| == 1 && !w'[0].Fault?
    requires Active(s.work[0]) ==> s.work[0].first + s.work[0].count == s.tk.head
    requires s.work[0].Done? ==> |s.work[0].got| == s.work[0].count
    ensures Returned(Apply(cfg, s, a)) == Returned(s) + |Taken(s, a)|
  {
    hide Quot, Rem, BlockIndex.Apply, BlockIndex.Shape, PutCell, CircularLess, Tickets.Decide;
    if a.Consume? {
      ConsumeKeepsClaim(cfg, s);
    } else if !a.Produce? {
      hide ConsumeStep, Advance;
    }
  }

  lemma ConsumeKeepsClaim(cfg: Config, s: State)
    requires cfg.Valid() && Shape(s) && Enabled(cfg, s, Consume(0)) && |s.work| == 1
    ensures var s' := Apply(cfg, s, Consume(0));
            s'.tk == s.tk && |s'.work| == 1 && (s'.work[0].Fault? || (Active(s'.work[0]) && s'.work[0].first == s.work[0].first))
  {
    hide Quot, Rem, BlockIndex.Apply, BlockIndex.Shape, PutCell;
  }

  lemma AloneState(cfg: Config, states: seq<State>, actions: seq<Action>, i: nat)
    requires cfg.Valid() && IsAnyRun(cfg, states, actions) && |states[0].work| == 1 && i < |states|
    ensures |states[i].work| == 1 && !states[i].work[0].Fault?
    ensures Returned(states[i]) <= states[i].tk.head <= |AllPublished(states, actions, i)|
    ensures i == 0 ==> Returned(states[i]) == 0
  {
    hide Inv, Recent, TicketsAlone, Returned, AllPublished;
    var g := AloneInv(cfg, states, actions, i);
    AloneAtHead(cfg, states[i], g);
    HeadInStream(cfg, states[i], g);
    ReturnedBelowHead(states[i]);
    if i == 0 {
      StartReturned(cfg, states[0]);
    }
  }

  /** What the dequeue that returns in step `i`, if one does, hands out. */
  lemma TakenInStep(cfg: Config, states: seq<State>, actions: seq<Action>, i: nat)
    requires cfg.Valid() && IsAnyRun(cfg, states, actions) && |states[0].work| == 1 && i < |actions|
    ensures |states[i].work| == 1 == |states[i + 1].work|
    ensures var taken, stream := Taken(states[i], actions[i]), AllPublished(states, actions, i);
            && Returned(states[i + 1]) == Returned(states[i]) + |taken|
            && (taken != [] ==> Returned(states[i]) + |taken| <= |stream|)
            && forall j :: 0 <= j < |taken| ==> taken[j] == Full(stream[Returned(states[i]) + j])
  {
    hide Inv, Recent, Shape, Enabled, Apply, TicketsAlone, Returned, Taken, AllPublished;
    assert IsAnyStep(cfg, states[i], actions[i], states[i + 1]);
    AloneState(cfg, states, actions, i);
    AloneState(cfg, states, actions, i + 1);
    var g := AloneInv(cfg, states, actions, i);
    StepTaken(cfg, states[i], g, actions[i]);
  }

  /** With one consumer, and without any condition on the run: the dequeues that have
      returned handed out exactly the items published first, each once and in order, and
      nothing missing is ever dereferenced. */
  lemma {:induction false} OneConsumerGetsTheStream(cfg: Config, states: seq<State>, actions: seq<Action>, i: nat)
    requires cfg.Valid() && IsAnyRun(cfg, states, actions) && |states[0].work| == 1 && i < |states|
    ensures |states[i].work| == 1 && !states[i].work[0].Fault?
    ensures var taken, stream := AllTaken(states, actions, i), AllPublished(states, actions, i);
            && |taken| == Returned(states[i]) <= states[i].tk.head <= |stream|
            && forall j :: 0 <= j < |taken| ==> taken[j] == Full(stream[j])
  {
    hide Initial, IsAnyStep, Returned, Taken, Published;
    AloneState(cfg, states, actions, i);
    if i > 0 {
      OneConsumerGetsTheStream(cfg, states, actions, i - 1);
      TakenInStep(cfg, states, actions, i - 1);
      TakenInOrder(AllTaken(states, actions, i - 1), Taken(states[i - 1], actions[i - 1]),
                   AllPublished(states, actions, i - 1), Published(states[i - 1], actions[i - 1]));
    }
  }

  lemma TakenInOrder(taken: seq<Cell>, more: seq<Cell>, stream: seq<Item>, further: seq<Item>)
    requires |taken| <= |stream| && forall j :: 0 <= j < |taken| ==> taken[j] == Full(stream[j])
    requires more != [] ==> |taken| + |more| <= |stream|
    requires forall j :: 0 <= j < |more| ==> more[j] == Full(stream[|taken| + j])
    ensures |taken + more| <= |stream + further|
    ensures forall j :: 0 <= j < |taken + more| ==> (taken + more)[j] == Full((stream + further)[j])
  {
  }

  lemma StepTaken(cfg: Config, s: State, g: Ghost, a: Action)
    requires Inv(cfg, s, g) && TicketsAlone(cfg, s) && Shape(s) && Enabled(cfg, s, a) && |s.work| == 1
    requires var w' := Apply(cfg, s, a).work; |w'| == 1 && !w'[0].Fault?
    ensures var taken := Taken(s, a);
            && Returned(Apply(cfg, s, a)) == Returned(s) + |taken|
            && (taken != [] ==> Returned(s) + |taken| <= |g.stream|)
            && forall j :: 0 <= j < |taken| ==> taken[j] == Full(g.stream[Returned(s) + j])
  {
    assert cfg.Valid();
    hide Inv, Shape, Enabled, Apply, TicketsAlone, Returned, Taken;
    AloneAtHead(cfg, s, g);
    ReturnedAfter(cfg, s, a);
    TakenFromStream(cfg, s, g, a);
  }

  lemma ReturnedBelowHead(s: State)
    requires |s.work| == 1 && (Active(s.work[0]) ==> s.work[0].first + s.work[0].count == s.tk.head)
    ensures Returned(s) <= s.tk.head
  {
  }

  lemma StartReturned(cfg: Config, s: State)
    requires exists memory, threads: nat :: s == Initial(cfg, memory, threads)
    ensures |s.work| == 1 ==> Returned(s) == 0
  {
  }

  /** A dequeue that returns hands out the items from the first of its claim on. */
  lemma TakenFromStream(cfg: Config, s: State, g: Ghost, a: Action)
    requires Inv(cfg, s, g) && Enabled(cfg, s, a) && |s.work| == 1
    ensures var taken := Taken(s, a);
            taken != [] ==> Returned(s) + |taken| <= |g.stream| && forall j :: 0 <= j < |taken| ==> taken[j] == Full(g.stream[Returned(s) + j])
  {
    hide Inv;
    if s.work[0].Done? { ThroughHasItsElements(cfg, s, g, 0); }
  }

  // ------------------------------------------------------------------ how much a dequeue takes

  /** In the part of a dequeue that settles how much it takes. */
  predicate Seeks(pc: Tickets.Pc) {
    !pc.Idle? && !pc.Claimed?
  }

  /** The only consumer is in a call for `max` elements that began with the head at `h`, and
      is bound for what there was up to the tail it loaded, `seen`. */
  predicate Aims(s: Tickets.State, h: nat, max: nat, seen: nat) {
    && |s.pcs| == 1 && s.head == h <= seen <= s.tail
    && var n := Min(max, seen - h);
       match s.pcs[0]
       case LoadTail(m) => m == max
       case LoadOver(m, tail) => m == max && tail == seen
       case Test(m, tail, _) => m == max && tail == seen
       case Draw(want, _) => want == n > 0
       case Drawn(_, want, _) => want == n > 0
       case Take(take) => take == n > 0
       case _ => false
  }

  /** It has claimed as much, if there was anything. */
  predicate Settled(s: Tickets.State, h: nat, max: nat, seen: nat) {
    && |s.pcs| == 1 && h <= seen <= s.tail
    && var n := Min(max, seen - h);
       s.pcs[0] == if n == 0 then Tickets.Idle else Tickets.Claimed(h, n)
  }

  lemma AloneInFlight(s: Tickets.State)
    requires |s.pcs| == 1
    ensures Tickets.InFlight(s) == Tickets.FlightWeight()(s.pcs[0])
  {
    assert s.pcs == [s.pcs[0]];
    Tally.SumConstant(s.pcs, Tickets.FlightWeight(), Tickets.FlightWeight()(s.pcs[0]));
  }

  lemma StepAims(half: nat, s: Tickets.State, h: nat, max: nat, seen: nat)
    requires half > 0 && max > 0 && Tickets.Ledger(s) && Tickets.Sole(s) && Aims(s, h, max, seen) && s.tail < h + half
    ensures Tickets.Enabled(s, Tickets.Run(0))
    ensures var s' := Tickets.Apply(half, s, Tickets.Run(0));
            var seen' := if s.pcs[0].LoadTail? then s.tail else seen;
            if Seeks(s'.pcs[0]) then Aims(s', h, max, seen') else Settled(s', h, max, seen')
  {
    hide Rem, Tickets.InFlight;
    AloneInFlight(s);
    match s.pcs[0]
    case Test(_, tail, over) =>
      assert s.opt - over == h;
      Grants(half, tail - h);
    case Drawn(my, want, over) =>
      assert my - over == h;
      Grants(half, s.tail - h);
    case _ =>
  }

  /** Below half a turn the wrapped test tells whether there is anything, and how much. */
  lemma Grants(half: nat, d: nat)
    requires d < half
    ensures Wrap(half, d) == d && (CircularLess(half, 0, d) <==> d > 0)
  {
    WrapUnique(half, d, 0, d);
    CircularLessExact(half, 0, d);
  }

  /** The dequeue called in step `i` is still seeking in state `j`. */
  ghost predicate SeeksFrom(states: seq<State>, actions: seq<Action>, i: nat, j: nat) {
    && i < |actions| && actions[i].Dequeue? && i < j < |states|
    && forall k :: i < k <= j ==> |states[k].tk.pcs| > 0 && Seeks(states[k].tk.pcs[0])
  }

  lemma TailNear(cfg: Config, s: State, g: Ghost)
    requires Inv(cfg, s, g)
    ensures s.tk.head <= s.tk.tail < s.tk.head + cfg.Half() && s.tk.tail == |g.stream| && |s.tk.pcs| == |s.work|
  {
    hide Quot, Rem, BlockIndex.Inv, Tickets.Inv, Claims, Places, Counts, Data, Owners, DoneSet, Retired, EnqInv;
    NextBlockBounds(cfg, s.tk.tail);
    Tickets.HeadNeverPassesTail(s.tk, g.log);
  }

  lemma OneTicket(cfg: Config, s: State)
    requires cfg.Valid() && TicketsAlone(cfg, s)
    ensures |s.tk.pcs| == 1
  {
  }

  lemma CallAims(cfg: Config, s: State, a: Action, s': State)
    requires cfg.Valid() && IsAnyStep(cfg, s, a, s') && a.Dequeue? && |s.tk.pcs| == 1 && s.tk.head <= s.tk.tail
    ensures a.max > 0 && Aims(s'.tk, s.tk.head, a.max, s'.tk.tail) && s'.tk.pcs[0].LoadTail?
  {
    hide Shape, Advance, ConsumeStep;
  }

  /** A step of the producer leaves the dequeue's aim as it is; a step of its own is one of
      the ticket protocol. */
  lemma SeekStep(cfg: Config, s: State, a: Action, s': State, h: nat, max: nat, seen: nat)
    requires cfg.Valid() && IsAnyStep(cfg, s, a, s') && TicketsAlone(cfg, s) && s.tk.tail < s.tk.head + cfg.Half()
    requires Aims(s.tk, h, max, seen) && max > 0
    ensures |s'.tk.pcs| == 1
    ensures if a.Ticket?
            then var seen' := if s.tk.pcs[0].LoadTail? then s.tk.tail else seen;
                 if Seeks(s'.tk.pcs[0]) then Aims(s'.tk, h, max, seen') && !s'.tk.pcs[0].LoadTail? else Settled(s'.tk, h, max, seen') && !s.tk.pcs[0].LoadTail?
            else Aims(s'.tk, h, max, seen) && s'.tk.pcs == s.tk.pcs
  {
    hide Shape, Apply, Enabled, Aims, Settled, Tickets.Ledger, Tickets.Apply;
    TicketsMove(cfg, s, a);
    if a.Ticket? {
      OwnTicket(s.tk, a.t, h, max, seen);
      StepAims(cfg.Half(), s.tk, h, max, seen);
      SeeksOn(cfg.Half(), s.tk, h, max, seen);
    } else {
      AimStays(cfg.Half(), s, a, h, max, seen);
    }
  }

  lemma OwnTicket(s: Tickets.State, t: nat, h: nat, max: nat, seen: nat)
    requires Tickets.Enabled(s, Tickets.Run(t)) && Aims(s, h, max, seen)
    ensures t == 0 && |s.pcs| == 1 && s.head == h
  {
  }

  lemma SeeksOn(half: nat, s: Tickets.State, h: nat, max: nat, seen: nat)
    requires half > 0 && Tickets.Enabled(s, Tickets.Run(0)) && Aims(s, h, max, seen)
    ensures var s' := Tickets.Apply(half, s, Tickets.Run(0)); |s'.pcs| == 1 && !s'.pcs[0].LoadTail? && (s.pcs[0].LoadTail? ==> Seeks(s'.pcs[0]))
  {
    hide Rem, Wrap;
  }

  lemma AimStays(half: nat, s: State, a: Action, h: nat, max: nat, seen: nat)
    requires half > 0 && Aims(s.tk, h, max, seen) && !a.Ticket? && (MovesTickets(s, a) ==> Tickets.Enabled(s.tk, TicketAction(s, a)))
    ensures MovesTickets(s, a) ==> var tk' := Tickets.Apply(half, s.tk, TicketAction(s, a)); Aims(tk', h, max, seen) && tk'.pcs == s.tk.pcs
  {
    hide Rem, Wrap;
  }

  /** The tail that the dequeue has loaded, if it has, was that of a state since its call. */
  ghost predicate Since(states: seq<State>, i: nat, j: nat, seen: nat) {
    j < |states| && (states[j].tk.pcs != [] && !states[j].tk.pcs[0].LoadTail? ==> exists k :: i < k <= j && states[k].tk.tail == seen)
  }

  lemma {:induction false} WhileSeeking(cfg: Config, states: seq<State>, actions: seq<Action>, i: nat, j: nat) returns (seen: nat)
    requires cfg.Valid() && IsAnyRun(cfg, states, actions) && |states[0].work| == 1 && SeeksFrom(states, actions, i, j)
    ensures actions[i].max > 0 && Aims(states[j].tk, states[i].tk.head, actions[i].max, seen) && Since(states, i, j, seen)
    decreases j
  {
    hide Inv, Shape, Recent, Enabled, Apply, TicketsAlone;
    var s, a := states[j - 1], actions[j - 1];
    assert IsAnyStep(cfg, s, a, states[j]);
    var g := AloneInv(cfg, states, actions, j - 1);
    TailNear(cfg, s, g);
    OneTicket(cfg, s);
    if j == i + 1 {
      CallAims(cfg, s, a, states[j]);
      seen := states[j].tk.tail;
    } else {
      seen := WhileSeeking(cfg, states, actions, i, j - 1);
      SeekStep(cfg, s, a, states[j], states[i].tk.head, actions[i].max, seen);
      if s.tk.pcs[0].LoadTail? && a.Ticket? { seen := s.tk.tail; }
    }
  }

  /** With one consumer, a dequeue takes as many as it asks for, or else all that were
      published at some moment during the call; it comes back with nothing only if, at that
      moment, there was nothing. */
  lemma OneConsumerTakesWhatThereIs(cfg: Config, states: seq<State>, actions: seq<Action>, i: nat, j: nat) returns (k: nat)
    requires cfg.Valid() && IsAnyRun(cfg, states, actions) && |states[0].work| == 1 && i + 1 < j < |states|
    requires SeeksFrom(states, actions, i, j - 1) && |states[j].tk.pcs| > 0 && !Seeks(states[j].tk.pcs[0])
    ensures i < k < j && states[i].tk.head <= |AllPublished(states, actions, k)|
    ensures var n := Min(actions[i].max, |AllPublished(states, actions, k)| - states[i].tk.head);
            states[j].tk.pcs[0] == if n == 0 then Tickets.Idle else Tickets.Claimed(states[i].tk.head, n)
  {
    hide Inv, Shape, Recent, Enabled, Apply, TicketsAlone;
    var s, a := states[j - 1], actions[j - 1];
    assert IsAnyStep(cfg, s, a, states[j]);
    var seen := WhileSeeking(cfg, states, actions, i, j - 1);
    var g := AloneInv(cfg, states, actions, j - 1);
    TailNear(cfg, s, g);
    assert Seeks(s.tk.pcs[0]);
    SeekStep(cfg, s, a, states[j], states[i].tk.head, actions[i].max, seen);
    k :| i < k <= j - 1 && states[k].tk.tail == seen;
    var gk := AloneInv(cfg, states, actions, k);
    TailNear(cfg, states[k], gk);
  }
}
