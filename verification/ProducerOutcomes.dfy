/** What an enqueue answers, and why; and how many steps of its own an operation takes at
    most, whatever the other threads do. Obtaining a block, or giving one back, is one step
    here; the steps it takes within the pool are in `BlockPool` and `FreeList`. */
module ProducerOutcomes {
  import opened Circular
  import opened ProducerQueue
  import opened ProducerInvariant
  import opened ProducerConsumers
  import opened ProducerBlocks
  import opened ProducerEnqueuer
  import opened ProducerTheorems
  import opened ProducerRuns
  import Tickets
  import BlockIndex

  // ------------------------------------------------------------------ why an enqueue fails

  /** The producer needs another block, and less than half a turn of the index is left. */
  ghost predicate NoRoom(cfg: Config, s: State)
    requires cfg.Valid()
  {
    && s.enq.Check? && s.enq.x * cfg.BlockSize() < s.tk.tail + |s.enq.items|
    && !Room(cfg, s.tk.head, s.enq.x + 1)
  }

  /** The index could not be allocated when the producer was made. */
  predicate NoIndex(s: State) {
    s.enq.Insert? && s.ix.headers == []
  }

  /** An allocation of a larger index, or the requisition of a block, is refused. */
  predicate Denied(s: State, a: Action) {
    s.enq.Insert? && (s.ix.writer.Grow? || s.ix.writer.Inserted?) && a == Produce(Fails)
  }

  /** A step of the producer that dooms the enqueue in progress. */
  ghost predicate Dooms(cfg: Config, s: State, a: Action)
    requires cfg.Valid()
  {
    a.Produce? && (NoRoom(cfg, s) || NoIndex(s) || Denied(s, a))
  }

  /** The enqueue in progress is being undone. */
  predicate Doomed(s: State) {
    s.enq.Cancel? || s.enq.Undo? || s.enq.Rewind? || s.enq.GiveBack? || (s.enq.Insert? && s.ix.writer.Refused?)
  }

  /** The items an enqueue still means to publish. */
  function ItemsOf(e: Enqueuer): seq<Item> {
    match e
    case Check(items, _, _) => items
    case Insert(items, _, _) => items
    case Clean(items, _, _, _) => items
    case Store(items, _, _, _) => items
    case Construct(items, _, _) => items
    case Publish(items, _) => items
    case _ => []
  }

  predicate GivenUp(e: Enqueuer) {
    e.Cancel? || e.Undo? || e.Rewind? || e.GiveBack?
  }

  /** Within an enqueue. */
  ghost predicate Continues(cfg: Config, s: State, a: Action, s': State)
    requires cfg.Valid()
  {
    && (s'.enq != Ready ==> (Doomed(s') <==> Doomed(s) || Dooms(cfg, s, a)))
    && (s'.enq == Ready ==> !Dooms(cfg, s, a) && (Doomed(s) <==> !Publishes(s, a)))
    && (Publishes(s, a) ==> s'.enq == Ready && !Doomed(s))
    && (s'.enq != Ready && !GivenUp(s'.enq) ==> !GivenUp(s.enq) && ItemsOf(s'.enq) == ItemsOf(s.enq))
  }

  /** An enqueue in progress is doomed by such a step, by no other, and for good; if it ends
      undoomed, its items are published. */
  lemma StepDooms(cfg: Config, s: State, g: Ghost, a: Action, s': State)
    requires Inv(cfg, s, g) && IsAnyStep(cfg, s, a, s') && s.enq != Ready
    ensures Continues(cfg, s, a, s')
  {
    assert cfg.Valid();
    if a.Produce? {
      if s.enq.Check? {
        CheckDooms(cfg, s, g, a.choice, s');
      } else if s.enq.Insert? {
        InsertDooms(cfg, s, a.choice, s');
      } else {
        LaterDooms(cfg, s, a.choice, s');
      }
    } else {
      OthersDoom(cfg, s, a, s');
    }
  }

  lemma CheckDooms(cfg: Config, s: State, g: Ghost, choice: Choice, s': State)
    requires Inv(cfg, s, g) && IsAnyStep(cfg, s, Produce(choice), s') && s.enq.Check?
    ensures Continues(cfg, s, Produce(choice), s')
  {
    hide Quot, Rem, BlockIndex.Inv, Tickets.Inv, Tickets.Apply, Claims, Places, Counts, Retired, DoneSet, Data, Owners, CircularLess, PutCell;
    RoomTest(cfg, s, g, s.enq.x);
  }

  lemma InsertDooms(cfg: Config, s: State, choice: Choice, s': State)
    requires cfg.Valid() && IsAnyStep(cfg, s, Produce(choice), s') && s.enq.Insert?
    ensures Continues(cfg, s, Produce(choice), s')
  {
    hide Quot, Rem, Tickets.Apply, CircularLess, PutCell, Room;
  }

  lemma LaterDooms(cfg: Config, s: State, choice: Choice, s': State)
    requires cfg.Valid() && IsAnyStep(cfg, s, Produce(choice), s') && s.enq != Ready && !s.enq.Check? && !s.enq.Insert?
    ensures Continues(cfg, s, Produce(choice), s')
  {
    hide Quot, Rem, Tickets.Apply, BlockIndex.Apply, BlockIndex.Shape, CircularLess, PutCell, Room;
  }

  /** Consumers do not touch the enqueue; they may only clear entries of the index. */
  lemma OthersDoom(cfg: Config, s: State, a: Action, s': State)
    requires cfg.Valid() && IsAnyStep(cfg, s, a, s') && s.enq != Ready && !a.Produce?
    ensures s'.enq == s.enq && s'.ix.writer == s.ix.writer && s'.ix.headers == s.ix.headers && s'.tk.tail == s.tk.tail
    ensures Continues(cfg, s, a, s')
  {
    hide Quot, Rem, Tickets.Decide, BlockIndex.Shape, CircularLess, PutCell, Room;
  }

  // ------------------------------------------------------------------ the outcome of an enqueue

  /** The enqueue made in step `i` is still in progress in state `j`. */
  ghost predicate InEnqueue(states: seq<State>, actions: seq<Action>, i: nat, j: nat) {
    i < |actions| && actions[i].Enqueue? && i < j < |states| && forall k :: i < k <= j ==> states[k].enq != Ready
  }

  ghost predicate DoomedBetween(cfg: Config, states: seq<State>, actions: seq<Action>, i: nat, j: nat)
    requires cfg.Valid() && j <= |actions| && j <= |states|
  {
    exists k :: i < k < j && Dooms(cfg, states[k], actions[k])
  }

  lemma {:induction false} WhileEnqueuing(cfg: Config, states: seq<State>, actions: seq<Action>, i: nat, j: nat)
    requires cfg.Valid() && IsRun(cfg, states, actions) && InEnqueue(states, actions, i, j)
    ensures Doomed(states[j]) <==> DoomedBetween(cfg, states, actions, i, j)
    ensures !GivenUp(states[j].enq) ==> ItemsOf(states[j].enq) == actions[i].items
    ensures AllPublished(states, actions, j) == AllPublished(states, actions, i)
    decreases j
  {
    hide Inv, Dooms, Doomed, GivenUp, ItemsOf, Apply, Enabled, Shape, Recent, Published;
    var s, a := states[j - 1], actions[j - 1];
    assert IsStep(cfg, s, a, states[j]);
    if j == i + 1 {
      EnqueueBegins(cfg, s, a, states[j]);
    } else {
      WhileEnqueuing(cfg, states, actions, i, j - 1);
      var g := RunInv(cfg, states, actions, j - 1);
      StepDooms(cfg, s, g, a, states[j]);
      NothingPublished(s, a);
    }
  }

  lemma NothingPublished(s: State, a: Action)
    ensures !Publishes(s, a) ==> Published(s, a) == []
    ensures Publishes(s, a) ==> Published(s, a) == ItemsOf(s.enq)
  {
  }

  lemma EnqueueBegins(cfg: Config, s: State, a: Action, s': State)
    requires cfg.Valid() && IsAnyStep(cfg, s, a, s') && a.Enqueue?
    ensures !Doomed(s') && !GivenUp(s'.enq) && ItemsOf(s'.enq) == a.items && Published(s, a) == [] && s'.enq != Ready
  {
  }

  /** An enqueue that is over has published exactly its items, unless, and only if, it found
      less than half a turn of the index left, or no index, or was refused an allocation or
      a block; then it has published nothing. */
  lemma EnqueueOutcome(cfg: Config, states: seq<State>, actions: seq<Action>, i: nat, j: nat)
    requires cfg.Valid() && IsRun(cfg, states, actions) && i + 1 < j < |states|
    requires InEnqueue(states, actions, i, j - 1) && states[j].enq == Ready
    ensures AllPublished(states, actions, j) ==
            AllPublished(states, actions, i) + (if DoomedBetween(cfg, states, actions, i, j) then [] else actions[i].items)
  {
    hide IsStep, Initial, InEnqueue, Dooms, Doomed, GivenUp, ItemsOf, Published, Publishes;
    EnqueueEnds(cfg, states, actions, i, j);
    NothingPublished(states[j - 1], actions[j - 1]);
    GivenUpIsDoomed(states[j - 1]);
    assert AllPublished(states, actions, i) + [] == AllPublished(states, actions, i);
  }

  lemma EnqueueEnds(cfg: Config, states: seq<State>, actions: seq<Action>, i: nat, j: nat)
    requires cfg.Valid() && IsRun(cfg, states, actions) && i + 1 < j < |states|
    requires InEnqueue(states, actions, i, j - 1) && states[j].enq == Ready
    ensures var s, a := states[j - 1], actions[j - 1];
            && !Dooms(cfg, s, a) && (Doomed(s) <==> !Publishes(s, a)) && (Doomed(s) <==> DoomedBetween(cfg, states, actions, i, j - 1))
            && (!GivenUp(s.enq) ==> ItemsOf(s.enq) == actions[i].items)
            && AllPublished(states, actions, j - 1) == AllPublished(states, actions, i)
  {
    hide Inv, Dooms, Doomed, GivenUp, ItemsOf, Published, Publishes, AllPublished, IsAnyStep, DoomedBetween;
    var s, a := states[j - 1], actions[j - 1];
    assert IsStep(cfg, s, a, states[j]);
    StepIsAny(cfg, s, a, states[j]);
    WhileEnqueuing(cfg, states, actions, i, j - 1);
    var g := RunInv(cfg, states, actions, j - 1);
    StepDooms(cfg, s, g, a, states[j]);
  }

  lemma StepIsAny(cfg: Config, s: State, a: Action, s': State)
    requires cfg.Valid()
    ensures IsStep(cfg, s, a, s') ==> IsAnyStep(cfg, s, a, s')
  {
    hide Shape, Enabled, Apply, Recent;
  }

  lemma GivenUpIsDoomed(s: State)
    ensures GivenUp(s.enq) ==> Doomed(s)
  {
  }

  // ------------------------------------------------------------------ an enqueue ends

  /** The steps of its own that the enqueue in progress still makes, at most. */
  function EnqueueLeft(cfg: Config, s: State): nat {
    match s.enq
    case Ready => 0
    case Check(items, x, chain) => 15 * BlocksLeft(cfg, s.tk.tail, items, x) + 3 * |chain| + |items| + 5
    case Insert(items, x, chain) => 15 * BlocksLeft(cfg, s.tk.tail, items, x + 1) + 3 * |chain| + |items| + 8 + WriterLeft(s.ix.writer)
    case Clean(items, x, chain, _) => 15 * BlocksLeft(cfg, s.tk.tail, items, x + 1) + 3 * |chain| + |items| + 10
    case Store(items, x, chain, _) => 15 * BlocksLeft(cfg, s.tk.tail, items, x + 1) + 3 * |chain| + |items| + 9
    case Cancel(chain) => 3 * |chain| + 3
    case Undo(chain, j) => 2 * Rest(chain, j) + |chain| + 2
    case Rewind(chain, j) => 2 * Rest(chain, j) + |chain| + 1
    case GiveBack(chain, j) => Rest(chain, j) + 1
    case Construct(items, _, i) => (if i < |items| then |items| - i else 0) + 2
    case Publish(_, _) => 1
  }

  function Rest(chain: seq<BlockId>, j: nat): nat {
    if j < |chain| then |chain| - j else 0
  }

  function BlocksLeft(cfg: Config, tail: nat, items: seq<Item>, x: nat): nat {
    if x < Needed(cfg, tail, items) then Needed(cfg, tail, items) - x else 0
  }

  function WriterLeft(w: BlockIndex.Writer): nat {
    match w
    case Look(_) => 7
    case Grow(_) => 6
    case PutKey(_, _) => 5
    case PutTail(_, _) => 4
    case Inserted(_, _) => 3
    case _ => 0
  }

  /** Each step of the producer within an enqueue leaves it fewer; the others' steps leave it
      as many. */
  lemma EnqueueShrinks(cfg: Config, s: State, g: Ghost, a: Action, s': State)
    requires Inv(cfg, s, g) && IsAnyStep(cfg, s, a, s') && s.enq != Ready
    ensures EnqueueLeft(cfg, s') + (if a.Produce? then 1 else 0) <= EnqueueLeft(cfg, s)
  {
    assert cfg.Valid();
    hide Inv, EnqueueLeft, Shape, Enabled, Apply;
    if a.Produce? {
      if s.enq.Check? {
        CheckShrinks(cfg, s, g, a.choice, s');
      } else if s.enq.Insert? {
        InsertPlaced(cfg, s, g);
        InsertShrinks(cfg, s, a.choice, s');
      } else {
        LaterShrinks(cfg, s, g, a.choice, s');
      }
    } else {
      OthersDoom(cfg, s, a, s');
      LeftUnchanged(cfg, s, s');
    }
  }

  lemma LeftUnchanged(cfg: Config, s: State, s': State)
    requires s'.enq == s.enq && s'.ix.writer == s.ix.writer && s'.tk.tail == s.tk.tail
    ensures EnqueueLeft(cfg, s') == EnqueueLeft(cfg, s)
  {
  }

  lemma CheckShrinks(cfg: Config, s: State, g: Ghost, choice: Choice, s': State)
    requires Inv(cfg, s, g) && IsAnyStep(cfg, s, Produce(choice), s') && s.enq.Check?
    ensures EnqueueLeft(cfg, s') < EnqueueLeft(cfg, s)
  {
    hide Quot, Rem, BlockIndex.Inv, Tickets.Inv, Tickets.Apply, Claims, Places, Counts, Retired, DoneSet, Data, Owners, CircularLess, PutCell, Needed;
    NeededTest(cfg, s.tk.tail, s.enq.items, s.enq.x);
  }

  lemma InsertPlaced(cfg: Config, s: State, g: Ghost)
    requires Inv(cfg, s, g)
    ensures s.enq.Insert? ==> !s.ix.writer.Drop? && !s.ix.writer.Unwind?
  {
    hide Quot, Rem, BlockIndex.Inv, Tickets.Inv, Claims, Places, Counts, Retired, DoneSet, Data, Owners, ChainLive;
  }

  lemma InsertShrinks(cfg: Config, s: State, choice: Choice, s': State)
    requires cfg.Valid() && IsAnyStep(cfg, s, Produce(choice), s') && s.enq.Insert? && !s.ix.writer.Drop? && !s.ix.writer.Unwind?
    ensures EnqueueLeft(cfg, s') < EnqueueLeft(cfg, s)
  {
    hide Quot, Rem, Tickets.Apply, CircularLess, PutCell, Needed;
  }

  lemma LaterShrinks(cfg: Config, s: State, g: Ghost, choice: Choice, s': State)
    requires Inv(cfg, s, g) && IsAnyStep(cfg, s, Produce(choice), s') && s.enq != Ready && !s.enq.Check? && !s.enq.Insert?
    ensures EnqueueLeft(cfg, s') < EnqueueLeft(cfg, s)
  {
    assert cfg.Valid() && (s.enq.Rewind? ==> s.enq.j < |s.enq.chain|) by { RewindsOne(cfg, s, g); }
    hide Inv, EnqueueLeft, IsAnyStep;
    if s.enq.Clean? || s.enq.Store? {
      OpenShrinks(cfg, s, choice, s');
    } else if s.enq.Construct? || s.enq.Publish? {
      BuildShrinks(cfg, s, choice, s');
    } else {
      UndoShrinks(cfg, s, choice, s');
    }
  }

  lemma RewindsOne(cfg: Config, s: State, g: Ghost)
    requires Inv(cfg, s, g)
    ensures s.enq.Rewind? ==> s.enq.j < |s.enq.chain|
  {
    hide Quot, Rem, BlockIndex.Inv, Tickets.Inv, Claims, Places, Counts, Retired, DoneSet, Data, Owners, ChainLive;
  }

  lemma OpenShrinks(cfg: Config, s: State, choice: Choice, s': State)
    requires cfg.Valid() && IsAnyStep(cfg, s, Produce(choice), s') && (s.enq.Clean? || s.enq.Store?)
    ensures EnqueueLeft(cfg, s') < EnqueueLeft(cfg, s)
  {
    hide Quot, Rem, BlockIndex.Apply, BlockIndex.Shape, CircularLess, PutCell, Needed;
    assert s.enq.Store? ==> |s.enq.chain + [s.enq.b]| == |s.enq.chain| + 1;
    assert s.enq.Store? ==> s'.enq == Check(s.enq.items, s.enq.x + 1, s.enq.chain + [s.enq.b]) && s'.tk == s.tk;
    assert s.enq.Clean? ==> s'.enq == Store(s.enq.items, s.enq.x, s.enq.chain, s.enq.b) && s'.tk == s.tk;
  }

  lemma BuildShrinks(cfg: Config, s: State, choice: Choice, s': State)
    requires cfg.Valid() && IsAnyStep(cfg, s, Produce(choice), s') && (s.enq.Construct? || s.enq.Publish?)
    ensures EnqueueLeft(cfg, s') < EnqueueLeft(cfg, s)
  {
    hide Quot, Rem, BlockIndex.Apply, BlockIndex.Shape, Tickets.Apply, CircularLess, PutCell, Needed;
  }

  lemma UndoShrinks(cfg: Config, s: State, choice: Choice, s': State)
    requires cfg.Valid() && IsAnyStep(cfg, s, Produce(choice), s') && (s.enq.Cancel? || s.enq.Undo? || s.enq.Rewind? || s.enq.GiveBack?)
    requires s.enq.Rewind? ==> s.enq.j < |s.enq.chain|
    ensures EnqueueLeft(cfg, s') < EnqueueLeft(cfg, s)
  {
    hide Quot, Rem, BlockIndex.Apply, BlockIndex.Shape, CircularLess, PutCell, Needed;
  }

  /** The steps of the producer thread from step `i` up to step `j`. */
  function ProducerSteps(actions: seq<Action>, i: nat, j: nat): nat
    requires i <= j <= |actions|
    decreases j
  {
    if i == j then 0 else ProducerSteps(actions, i, j - 1) + (if actions[j - 1].Produce? then 1 else 0)
  }

  /** Enqueueing is wait-free: whatever the consumers do, an enqueue is over after a number
      of steps of its own that depends on what it enqueues alone. */
  lemma {:induction false} EnqueueIsWaitFree(cfg: Config, states: seq<State>, actions: seq<Action>, i: nat, j: nat)
    requires cfg.Valid() && IsRun(cfg, states, actions) && InEnqueue(states, actions, i, j)
    ensures ProducerSteps(actions, i + 1, j) + EnqueueLeft(cfg, states[j]) <= 16 * |actions[i].items| + 20
    ensures EnqueueLeft(cfg, states[j]) > 0
    decreases j
  {
    hide Inv, Apply, Enabled, Shape, Recent, EnqueueLeft;
    var s, a := states[j - 1], actions[j - 1];
    assert IsStep(cfg, s, a, states[j]);
    SomeLeft(cfg, states[j]);
    if j == i + 1 {
      EnqueueAtFirst(cfg, s, a, states[j]);
    } else {
      EnqueueIsWaitFree(cfg, states, actions, i, j - 1);
      var g := RunInv(cfg, states, actions, j - 1);
      EnqueueShrinks(cfg, s, g, a, states[j]);
    }
  }

  lemma SomeLeft(cfg: Config, s: State)
    ensures s.enq != Ready <==> EnqueueLeft(cfg, s) > 0
  {
    hide Needed;
  }

  lemma EnqueueAtFirst(cfg: Config, s: State, a: Action, s': State)
    requires cfg.Valid() && IsAnyStep(cfg, s, a, s') && a.Enqueue?
    ensures EnqueueLeft(cfg, s') <= 16 * |a.items| + 20
  {
    hide Quot, Rem;
    FewBlocks(cfg, s.tk.tail, a.items);
  }

  /** An enqueue needs at most as many blocks as it has items. */
  lemma FewBlocks(cfg: Config, tail: nat, items: seq<Item>)
    requires cfg.Valid()
    ensures BlocksLeft(cfg, tail, items, NextBlock(cfg, tail)) <= |items|
  {
    hide Quot, Rem;
    var B, m, n := cfg.BlockSize(), NextBlock(cfg, tail), Needed(cfg, tail, items);
    BlockSizePositive(cfg);
    NextBlockBounds(cfg, tail);
    NextBlockBounds(cfg, tail + |items|);
    Distribute(n, -(m as int), B);
    if n - m > |items| {
      BlocksCost(n - m, |items|, B);
      assert false;
    }
  }

  lemma BlocksCost(d: nat, k: nat, B: nat)
    requires d > k && B > 0
    ensures d * B >= k + B
  {
    assert d * B == (d - k - 1) * B + (k + 1) * B;
    assert (d - k - 1) * B >= 0;
    assert (k + 1) * B == k * B + B;
    assert k * B >= k;
  }

  // ------------------------------------------------------------------ a dequeue ends

  /** The steps of its own that consumer `t`'s call still makes, at most. */
  function DequeueLeft(pc: Tickets.Pc, w: Work, r: BlockIndex.Reader): nat {
    match pc
    case Idle => 0
    case LoadTail(max) => 10 * max + 12
    case LoadOver(max, _) => 10 * max + 11
    case Test(max, _, _) => 10 * max + 10
    case Draw(want, _) => 10 * want + 9
    case Drawn(_, want, _) => 10 * want + 8
    case Short(take, _) => 10 * take + 7
    case Take(take) => 10 * take + 6
    case Miss(_) => 1
    case Claimed(_, _) => ClaimLeft(w, r)
  }

  function ClaimLeft(w: Work, r: BlockIndex.Reader): nat {
    match w
    case Looking(first, count, pos, _) => 10 * Ahead(first, count, pos) + 2 + ReaderLeft(r)
    case Moving(first, count, pos, _, _, start, _) => 10 * Ahead(first, count, start) + (if start <= pos < start + 10 * Ahead(first, count, start) then start - pos else 0) + 1
    case Clearing(first, count, pos, _, _) => 10 * Ahead(first, count, pos) + 4
    case Giving(first, count, pos, _, _) => 10 * Ahead(first, count, pos) + 3 + ReaderLeft(r)
    case Done(_, _, _, _) => 1
    case _ => 0
  }

  function Ahead(first: nat, count: nat, pos: nat): nat {
    if pos < first + count then first + count - pos else 0
  }

  function ReaderLeft(r: BlockIndex.Reader): nat {
    match r
    case LoadHeader(_, _) => 3
    case LoadTail(_, _, _) => 2
    case LoadKey(_, _, _, _) => 1
    case _ => 0
  }

  /** The steps that consumer `t` makes itself. */
  predicate Own(a: Action, t: nat) {
    (a.Ticket? || a.Consume? || a.Return?) && a.t == t
  }

  function LeftAt(s: State, t: nat): nat {
    if t < |s.tk.pcs| && t < |s.work| && t < |s.ix.readers| then DequeueLeft(s.tk.pcs[t], s.work[t], s.ix.readers[t]) else 0
  }

  lemma TicketShrinks(cfg: Config, s: State, g: Ghost, t: nat, s': State)
    requires Inv(cfg, s, g) && IsAnyStep(cfg, s, Ticket(t), s')
    ensures LeftAt(s', t) < LeftAt(s, t)
  {
    hide Quot, Rem, BlockIndex.Inv, Tickets.Inv, BlockIndex.Shape, CircularLess, Claims, Places, Counts, Retired, DoneSet, Data, Owners, EnqInv, Wrap;
    if s.tk.pcs[t].Take? { TakesSome(s.tk, g.log, t); }
  }

  lemma TakesSome(tk: Tickets.State, log: seq<Tickets.Verdict>, t: nat)
    requires Tickets.Inv(tk, log) && t < |tk.pcs|
    ensures Tickets.PcInv(tk, log, tk.pcs[t])
  {
  }

  lemma ConsumeShrinks(cfg: Config, s: State, g: Ghost, t: nat, s': State)
    requires Inv(cfg, s, g) && IsAnyStep(cfg, s, Consume(t), s')
    ensures LeftAt(s', t) < LeftAt(s, t)
  {
    assert cfg.Valid();
    MoverFacts(cfg, s, g, t);
    WillNotFault(cfg, s, g, t, s');
    hide Inv, LeftAt, IsAnyStep, Enabled, Shape;
    if s.work[t].Looking? {
      LookingShrinks(cfg, s, t, s');
    } else if s.work[t].Moving? {
      MovingShrinks(cfg, s, t, s');
    } else {
      ReturningShrinks(cfg, s, t, s');
    }
  }

  lemma WillNotFault(cfg: Config, s: State, g: Ghost, t: nat, s': State)
    requires Inv(cfg, s, g) && IsAnyStep(cfg, s, Consume(t), s')
    ensures t < |s'.work| && !s'.work[t].Fault?
  {
    assert cfg.Valid();
    hide Inv, Shape, Enabled, Apply;
    var g' := StepConsume(cfg, s, g, t);
    WorkSize(cfg, s, Consume(t));
    InRange(cfg, s, t);
    NeverStuck(cfg, s', g', t);
  }

  lemma InRange(cfg: Config, s: State, t: nat)
    requires Enabled(cfg, s, Consume(t))
    ensures t < |s.work| && t < |s.ix.readers|
  {
  }

  lemma MoverFacts(cfg: Config, s: State, g: Ghost, t: nat)
    requires Inv(cfg, s, g) && Enabled(cfg, s, Consume(t))
    ensures t < |s.work| && t < |s.tk.pcs| && t < |s.ix.readers|
    ensures var w := s.work[t];
            && (Active(w) ==> s.tk.pcs[t].Claimed?)
            && (w.Looking? ==> w.pos < w.first + w.count)
            && (w.Moving? ==> w.first <= w.start <= w.pos <= w.end <= w.first + w.count && w.start < w.end)
  {
    hide Quot, Rem, BlockIndex.Inv, Tickets.Inv, Counts, Retired, DoneSet, Data, Owners, EnqInv;
    PlaceAt(cfg, s, g, t);
  }

  lemma LookingShrinks(cfg: Config, s: State, t: nat, s': State)
    requires cfg.Valid() && IsAnyStep(cfg, s, Consume(t), s') && s.work[t].Looking? && t < |s'.work| && !s'.work[t].Fault?
    requires s.tk.pcs[t].Claimed? && s.work[t].pos < s.work[t].first + s.work[t].count
    ensures LeftAt(s', t) < LeftAt(s, t)
  {
    hide Quot, Rem, BlockIndex.Shape, BlockIndex.FindSlot, PutCell;
  }

  lemma MovingShrinks(cfg: Config, s: State, t: nat, s': State)
    requires cfg.Valid() && IsAnyStep(cfg, s, Consume(t), s') && s.work[t].Moving? && t < |s'.work| && !s'.work[t].Fault?
    requires s.tk.pcs[t].Claimed?
    requires var w := s.work[t]; w.first <= w.start <= w.pos <= w.end <= w.first + w.count && w.start < w.end
    ensures LeftAt(s', t) < LeftAt(s, t)
  {
    hide Quot, Rem, BlockIndex.Shape, BlockIndex.FindSlot, PutCell;
  }

  lemma ReturningShrinks(cfg: Config, s: State, t: nat, s': State)
    requires cfg.Valid() && IsAnyStep(cfg, s, Consume(t), s') && !s.work[t].Looking? && !s.work[t].Moving?
    requires s.tk.pcs[t].Claimed?
    ensures LeftAt(s', t) < LeftAt(s, t)
  {
    hide Quot, Rem, BlockIndex.Shape, BlockIndex.FindSlot, PutCell;
  }

  lemma ReturnShrinks(cfg: Config, s: State, g: Ghost, t: nat, s': State)
    requires Inv(cfg, s, g) && IsAnyStep(cfg, s, Return(t), s')
    ensures LeftAt(s', t) < LeftAt(s, t)
  {
    hide Quot, Rem, BlockIndex.Inv, Tickets.Inv, BlockIndex.Shape, Counts, Retired, DoneSet, Data, Owners, EnqInv;
    PlaceAt(cfg, s, g, t);
  }

  /** What consumer `t` is at. */
  predicate SamePlace(s: State, s': State, t: nat) {
    && |s'.tk.pcs| == |s.tk.pcs| && |s'.work| == |s.work| && |s'.ix.readers| == |s.ix.readers|
    && (t < |s.tk.pcs| ==> s'.tk.pcs[t] == s.tk.pcs[t])
    && (t < |s.work| ==> s'.work[t] == s.work[t])
    && (t < |s.ix.readers| ==> s'.ix.readers[t] == s.ix.readers[t])
  }

  /** Other threads' steps leave consumer `t` where it is. */
  lemma OthersLeave(cfg: Config, s: State, a: Action, t: nat, s': State)
    requires cfg.Valid() && IsAnyStep(cfg, s, a, s') && !Own(a, t) && (a.Dequeue? ==> a.t != t)
    ensures SamePlace(s, s', t) && LeftAt(s', t) == LeftAt(s, t)
  {
    hide IsAnyStep, DequeueLeft;
    match a
    case Produce(_) => ProducerLeaves(cfg, s, a, t, s');
    case Consume(_) => ConsumerLeaves(cfg, s, a, t, s');
    case _ => CallLeaves(cfg, s, a, t, s');
  }

  lemma ProducerLeaves(cfg: Config, s: State, a: Action, t: nat, s': State)
    requires cfg.Valid() && IsAnyStep(cfg, s, a, s') && a.Produce?
    ensures SamePlace(s, s', t)
  {
    hide Quot, Rem, BlockIndex.Shape, BlockIndex.FindSlot, PutCell, CircularLess;
  }

  lemma ConsumerLeaves(cfg: Config, s: State, a: Action, t: nat, s': State)
    requires cfg.Valid() && IsAnyStep(cfg, s, a, s') && a.Consume? && a.t != t
    ensures SamePlace(s, s', t)
  {
    hide Quot, Rem, BlockIndex.Shape, BlockIndex.FindSlot, PutCell;
  }

  lemma CallLeaves(cfg: Config, s: State, a: Action, t: nat, s': State)
    requires cfg.Valid() && IsAnyStep(cfg, s, a, s') && !a.Produce? && !a.Consume? && (a.Enqueue? || a.t != t)
    ensures SamePlace(s, s', t)
  {
    hide Quot, Rem, BlockIndex.Shape, CircularLess, Tickets.Decide;
  }

  /** The call that consumer `t` made in step `i` is still in progress in state `j`. */
  ghost predicate InDequeue(states: seq<State>, actions: seq<Action>, i: nat, j: nat, t: nat) {
    && i < |actions| && actions[i].Dequeue? && actions[i].t == t && i < j < |states|
    && forall k :: i < k <= j ==> t < |states[k].tk.pcs| && !states[k].tk.pcs[t].Idle?
  }

  function OwnSteps(actions: seq<Action>, t: nat, i: nat, j: nat): nat
    requires i <= j <= |actions|
    decreases j
  {
    if i == j then 0 else OwnSteps(actions, t, i, j - 1) + (if Own(actions[j - 1], t) then 1 else 0)
  }

  lemma OwnShrinks(cfg: Config, s: State, g: Ghost, a: Action, t: nat, s': State)
    requires Inv(cfg, s, g) && IsAnyStep(cfg, s, a, s') && t < |s.tk.pcs| && !s.tk.pcs[t].Idle?
    ensures LeftAt(s', t) + (if Own(a, t) then 1 else 0) <= LeftAt(s, t)
  {
    assert cfg.Valid() && (a.Dequeue? ==> a.t != t);
    hide Inv, LeftAt, IsAnyStep;
    match a
    case Ticket(u) => if u == t { TicketShrinks(cfg, s, g, t, s'); } else { OthersLeave(cfg, s, a, t, s'); }
    case Consume(u) => if u == t { ConsumeShrinks(cfg, s, g, t, s'); } else { OthersLeave(cfg, s, a, t, s'); }
    case Return(u) => if u == t { ReturnShrinks(cfg, s, g, t, s'); } else { OthersLeave(cfg, s, a, t, s'); }
    case _ => OthersLeave(cfg, s, a, t, s');
  }

  /** Dequeueing is wait-free: whatever the others do, a call is over after a number of steps
      of its own that depends on what it asks for alone. */
  lemma {:induction false} DequeueIsWaitFree(cfg: Config, states: seq<State>, actions: seq<Action>, i: nat, j: nat, t: nat)
    requires cfg.Valid() && IsRun(cfg, states, actions) && InDequeue(states, actions, i, j, t)
    ensures OwnSteps(actions, t, i + 1, j) + LeftAt(states[j], t) <= 10 * actions[i].max + 12
    decreases j
  {
    hide Inv, Apply, Enabled, Shape, Recent, LeftAt;
    var s, a := states[j - 1], actions[j - 1];
    assert IsStep(cfg, s, a, states[j]);
    if j == i + 1 {
      DequeueAtFirst(cfg, s, a, states[j]);
    } else {
      DequeueIsWaitFree(cfg, states, actions, i, j - 1, t);
      var g := RunInv(cfg, states, actions, j - 1);
      OwnShrinks(cfg, s, g, a, t, states[j]);
    }
  }

  lemma DequeueAtFirst(cfg: Config, s: State, a: Action, s': State)
    requires cfg.Valid() && IsAnyStep(cfg, s, a, s') && a.Dequeue?
    ensures LeftAt(s', a.t) <= 10 * a.max + 12
  {
    hide Quot, Rem, BlockIndex.Shape;
  }
}
