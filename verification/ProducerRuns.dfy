/** What holds between different moments of a run of one producer with its consumers, and
    the tests that the code makes on wrapped indices and the model on plain numbers. */
module ProducerRuns {
  import opened Basics
  import opened Circular
  import opened ProducerQueue
  import opened ProducerInvariant
  import opened ProducerBlocks
  import opened ProducerEnqueuer
  import opened ProducerTheorems
  import Tickets
  import BlockIndex

  /** Any run at all: no thread need be recent. */
  ghost predicate IsAnyRun(cfg: Config, states: seq<State>, actions: seq<Action>)
    requires cfg.Valid()
  {
    && |states| == |actions| + 1
    && (exists memory, threads: nat :: states[0] == Initial(cfg, memory, threads))
    && (forall i :: 0 <= i < |actions| ==> IsAnyStep(cfg, states[i], actions[i], states[i + 1]))
  }

  ghost predicate IsAnyStep(cfg: Config, s: State, a: Action, s': State)
    requires cfg.Valid()
  {
    Shape(s) && Enabled(cfg, s, a) && s' == Apply(cfg, s, a)
  }

  // ------------------------------------------------------------------ tickets within a run

  predicate MovesTickets(s: State, a: Action) {
    a.Dequeue? || a.Ticket? || a.Return? || Publishes(s, a)
  }

  /** The step of the ticket protocol that a step makes. */
  function TicketAction(s: State, a: Action): Tickets.Action {
    match a
    case Dequeue(t, max) => Tickets.Call(t, max)
    case Ticket(t) => Tickets.Run(t)
    case Return(t) => Tickets.Finish(t)
    case _ => Tickets.Publish(|Published(s, a)|)
  }

  /** Every step makes a step of the ticket protocol or leaves the tickets alone. */
  lemma TicketsMove(cfg: Config, s: State, a: Action)
    requires cfg.Valid() && Shape(s) && Enabled(cfg, s, a)
    ensures MovesTickets(s, a) ==> Tickets.Enabled(s.tk, TicketAction(s, a))
                                   && Apply(cfg, s, a).tk == Tickets.Apply(cfg.Half(), s.tk, TicketAction(s, a))
    ensures !MovesTickets(s, a) ==> Apply(cfg, s, a).tk == s.tk
  {
    hide Quot, Rem, BlockIndex.Apply, BlockIndex.Shape, Tickets.Apply, PutCell;
  }

  lemma {:induction false} RunSmall(cfg: Config, states: seq<State>, actions: seq<Action>, i: nat)
    requires cfg.Valid() && IsAnyRun(cfg, states, actions) && i < |states|
    ensures Tickets.Small(cfg.Half(), states[i].tk)
  {
    hide Tickets.Apply, Apply, Enabled, Shape, BlockIndex.Initial;
    if i > 0 {
      RunSmall(cfg, states, actions, i - 1);
      var s, a := states[i - 1], actions[i - 1];
      assert IsAnyStep(cfg, s, a, states[i]);
      hide Tickets.Small;
      TicketsMove(cfg, s, a);
      if MovesTickets(s, a) {
        Tickets.StepSmall(cfg.Half(), s.tk, TicketAction(s, a));
      }
    }
  }

  // ------------------------------------------------------------------ dequeues at different times

  /** A dequeue returns. */
  predicate Returns(s: State, a: Action) {
    a.Return? && a.t < |s.work| && s.work[a.t].Done?
  }

  predicate Beside(w: Work, first: nat, count: nat) {
    Active(w) ==> w.first + w.count <= first || first + count <= w.first
  }

  /** A claim is kept until it ends, and a new one starts at the head. */
  lemma ClaimAfter(cfg: Config, s: State, a: Action, u: nat)
    requires cfg.Valid() && Shape(s) && Enabled(cfg, s, a) && u < |s.work|
    ensures |Apply(cfg, s, a).work| == |s.work|
    ensures var w, w' := s.work[u], Apply(cfg, s, a).work[u];
            Active(w') ==> w'.first == s.tk.head || (Active(w) && w'.first == w.first && w'.count == w.count)
  {
    hide Quot, Rem, BlockIndex.Apply, BlockIndex.Shape, Tickets.Apply, PutCell, CircularLess;
  }

  /** After a dequeue has returned, no consumer ever has an element of its claim. */
  lemma {:induction false} BesideLater(cfg: Config, states: seq<State>, actions: seq<Action>, i: nat, j: nat, u: nat)
    requires cfg.Valid() && IsRun(cfg, states, actions) && i < |actions| && Returns(states[i], actions[i])
    requires i < j < |states| && u < |states[j].work|
    ensures var w := states[i].work[actions[i].t];
            w.first + w.count <= states[j].tk.head && Beside(states[j].work[u], w.first, w.count)
    decreases j
  {
    hide Inv, Apply, Enabled, Shape, Recent, Active;
    var s, a := states[j - 1], actions[j - 1];
    assert IsStep(cfg, s, a, states[j]);
    HeadAdvances(cfg, s, a);
    WorkSize(cfg, s, a);
    ClaimAfter(cfg, s, a, u);
    if i == j - 1 {
      var g := RunInv(cfg, states, actions, i);
      ReturnedBeside(cfg, s, g, a, u);
    } else {
      BesideLater(cfg, states, actions, i, j - 1, u);
      StillBeside(s.work[u], states[j].work[u], s.tk.head, states[i].work[actions[i].t]);
    }
  }

  lemma WorkSize(cfg: Config, s: State, a: Action)
    requires cfg.Valid() && Shape(s) && Enabled(cfg, s, a)
    ensures |Apply(cfg, s, a).work| == |s.work|
  {
    hide Quot, Rem, BlockIndex.Apply, BlockIndex.Shape, Tickets.Apply, PutCell, CircularLess;
  }

  lemma StillBeside(v: Work, v': Work, head: nat, w: Work)
    requires Active(w) && w.first + w.count <= head && Beside(v, w.first, w.count)
    requires Active(v') ==> v'.first == head || (Active(v) && v'.first == v.first && v'.count == v.count)
    ensures Beside(v', w.first, w.count)
  {
  }

  lemma ReturnedBeside(cfg: Config, s: State, g: Ghost, a: Action, u: nat)
    requires Inv(cfg, s, g) && Shape(s) && Enabled(cfg, s, a) && Returns(s, a) && u < |s.work|
    ensures var w, s' := s.work[a.t], Apply(cfg, s, a);
            w.first + w.count <= s.tk.head && u < |s'.work| && Beside(s'.work[u], w.first, w.count)
  {
    hide Inv, Quot, Rem, BlockIndex.Shape, Tickets.Apply;
    ClaimBelowHead(cfg, s, g, a.t);
    if u != a.t && Active(s.work[u]) {
      ClaimsApart(cfg, s, g, a.t, u);
    }
  }

  lemma {:induction false} StreamGrows(states: seq<State>, actions: seq<Action>, i: nat, j: nat)
    requires i <= j <= |actions| && |states| == |actions| + 1
    ensures AllPublished(states, actions, i) <= AllPublished(states, actions, j)
    decreases j
  {
    if i < j {
      StreamGrows(states, actions, i, j - 1);
    }
  }

  /** The items from `first` on, as published. */
  predicate HandsOut(w: Work, stream: seq<Item>)
    requires Active(w)
  {
    w.first + w.count <= |stream| && |w.got| == w.count && forall k :: 0 <= k < w.count ==> w.got[k] == Full(stream[w.first + k])
  }

  lemma ReturnedItems(cfg: Config, states: seq<State>, actions: seq<Action>, i: nat, j: nat)
    requires cfg.Valid() && IsRun(cfg, states, actions) && i < |actions| && Returns(states[i], actions[i]) && i <= j <= |actions|
    ensures HandsOut(states[i].work[actions[i].t], AllPublished(states, actions, j))
  {
    hide Inv, AllPublished, IsStep;
    var g := RunInv(cfg, states, actions, i);
    ThroughHasItsElements(cfg, states[i], g, actions[i].t);
    StreamGrows(states, actions, i, j);
  }

  /** Of any two dequeues that return in a run, by whatever consumers and however far apart,
      each hands out consecutive published items, and the two have none in common. */
  lemma DequeuesShareNothing(cfg: Config, states: seq<State>, actions: seq<Action>, i: nat, j: nat)
    requires cfg.Valid() && IsRun(cfg, states, actions) && i < j < |actions|
    requires Returns(states[i], actions[i]) && Returns(states[j], actions[j])
    ensures var w, v := states[i].work[actions[i].t], states[j].work[actions[j].t];
            w.first + w.count <= v.first || v.first + v.count <= w.first
    ensures HandsOut(states[i].work[actions[i].t], AllPublished(states, actions, j))
    ensures HandsOut(states[j].work[actions[j].t], AllPublished(states, actions, j))
  {
    hide HandsOut, AllPublished, IsStep;
    BesideLater(cfg, states, actions, i, j, actions[j].t);
    ReturnedItems(cfg, states, actions, i, j);
    ReturnedItems(cfg, states, actions, j, j);
  }

  // ------------------------------------------------------------------ blocks come and go in turn

  /** A requisition hands block `b` to the producer. */
  predicate Obtains(s: State, a: Action, b: BlockId) {
    a.Produce? && s.enq.Insert? && s.ix.writer.Inserted? && a.choice.Gets? && a.choice.b == b
  }

  /** The producer or a consumer adds block `b` to the free list. */
  predicate GivesBack(s: State, a: Action, b: BlockId) {
    || (a.Produce? && s.enq.GiveBack? && s.enq.j < |s.enq.chain| && s.enq.chain[s.enq.j] == b)
    || (a.Consume? && a.t < |s.work| && s.work[a.t].Giving? && s.work[a.t].b == b)
  }

  lemma BlockMoves(cfg: Config, s: State, a: Action, b: BlockId)
    requires cfg.Valid() && Shape(s) && Enabled(cfg, s, a)
    ensures b in Apply(cfg, s, a).blocks <==> Obtains(s, a, b) || (b in s.blocks && !GivesBack(s, a, b))
    ensures Obtains(s, a, b) ==> b !in s.blocks
  {
    hide Quot, Rem, BlockIndex.Apply, BlockIndex.Shape, Tickets.Apply, CircularLess;
  }

  /** What is given back was held. */
  lemma GivesWhatItHas(cfg: Config, s: State, g: Ghost, a: Action, b: BlockId)
    requires Inv(cfg, s, g) && GivesBack(s, a, b)
    ensures b in s.blocks
  {
    hide Quot, Rem, BlockIndex.Inv, Tickets.Inv, Claims, Places, Counts, Retired, DoneSet, Data;
    if a.Produce? {
      assert s.enq.chain[s.enq.j..][0] == b && Private(s.enq, b);
    } else {
      assert GivenBySome(s.work, b);
    }
  }

  lemma {:induction false} ObtainedBetween(cfg: Config, states: seq<State>, actions: seq<Action>, i: nat, j: nat, b: BlockId) returns (k: nat)
    requires cfg.Valid() && IsRun(cfg, states, actions) && i <= j < |states|
    requires b !in states[i].blocks && b in states[j].blocks
    ensures i <= k < j && Obtains(states[k], actions[k], b)
    decreases j
  {
    hide Apply, Enabled, Shape, Recent;
    k := j - 1;
    assert IsStep(cfg, states[k], actions[k], states[j]);
    BlockMoves(cfg, states[k], actions[k], b);
    if !Obtains(states[k], actions[k], b) {
      k := ObtainedBetween(cfg, states, actions, i, k, b);
    }
  }

  lemma {:induction false} GivenBackBetween(cfg: Config, states: seq<State>, actions: seq<Action>, i: nat, j: nat, b: BlockId) returns (k: nat)
    requires cfg.Valid() && IsRun(cfg, states, actions) && i <= j < |states|
    requires b in states[i].blocks && b !in states[j].blocks
    ensures i <= k < j && GivesBack(states[k], actions[k], b)
    decreases j
  {
    hide Apply, Enabled, Shape, Recent;
    k := j - 1;
    assert IsStep(cfg, states[k], actions[k], states[j]);
    BlockMoves(cfg, states[k], actions[k], b);
    if !GivesBack(states[k], actions[k], b) {
      k := GivenBackBetween(cfg, states, actions, i, k, b);
    }
  }

  /** A block is given back exactly once after each time it was obtained: between two returns
      lies an acquisition, and between two acquisitions a return. */
  lemma ReturnedOnce(cfg: Config, states: seq<State>, actions: seq<Action>, i: nat, j: nat, b: BlockId) returns (k: nat)
    requires cfg.Valid() && IsRun(cfg, states, actions) && i < j < |actions|
    requires (GivesBack(states[i], actions[i], b) && GivesBack(states[j], actions[j], b))
             || (Obtains(states[i], actions[i], b) && Obtains(states[j], actions[j], b))
    ensures i < k < j
    ensures if GivesBack(states[j], actions[j], b) then Obtains(states[k], actions[k], b) else GivesBack(states[k], actions[k], b)
  {
    assert IsStep(cfg, states[i], actions[i], states[i + 1]) && IsStep(cfg, states[j], actions[j], states[j + 1]);
    hide Inv, Apply, Enabled, Shape, Recent;
    BlockMoves(cfg, states[i], actions[i], b);
    BlockMoves(cfg, states[j], actions[j], b);
    if GivesBack(states[j], actions[j], b) {
      var g := RunInv(cfg, states, actions, j);
      GivesWhatItHas(cfg, states[j], g, actions[j], b);
      k := ObtainedBetween(cfg, states, actions, i + 1, j, b);
    } else {
      k := GivenBackBetween(cfg, states, actions, i + 1, j, b);
    }
  }
}
