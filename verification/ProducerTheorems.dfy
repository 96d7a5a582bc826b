/** What the protocol of one implicit producer guarantees: whatever the interleaving, it
    is one first-in first-out queue, nothing it dereferences is missing, and blocks are
    conserved. */
module ProducerTheorems {
  import opened Circular
  import opened Tally
  import opened ProducerQueue
  import opened ProducerInvariant
  import opened ProducerConsumers
  import opened ProducerBlocks
  import opened ProducerEnqueuer
  import Tickets
  import BlockIndex

  lemma InitialInv(cfg: Config, memory: bool, threads: nat) returns (g: Ghost)
    requires cfg.Valid()
    ensures Inv(cfg, Initial(cfg, memory, threads), g) && g.stream == []
  {
    hide BlockIndex.Inv, Tickets.Inv, Quot, Rem;
    g := Ghost([], BlockIndex.InitialMap(cfg, memory), [], {});
    Tickets.InitialInv(threads);
    BlockIndex.InitialInv(cfg, memory, threads);
    NextBlockBounds(cfg, 0);
    BlockSizePositive(cfg);
    NextBlockIs(cfg, 0, 0);
  }

  // ------------------------------------------------------------------ every step

  /** The items a step publishes. */
  function Published(s: State, a: Action): seq<Item> {
    if a.Produce? && s.enq.Publish? then s.enq.items else []
  }

  /** The number of elements a step claims for a consumer. */
  function Claimed(s: State, a: Action): nat {
    if a.Ticket? && a.t < |s.tk.pcs| && s.tk.pcs[a.t].Take? then s.tk.pcs[a.t].take else 0
  }

  /** A published block in use, or one on its way back. */
  ghost predicate Held(work: seq<Work>, m: BlockIndex.Map, b: BlockId) {
    (exists k: nat :: k in m.live && k <= m.committed && m.live[k] == b) || GivenBySome(work, b)
  }

  /** Without a publication no block comes to be held. */
  ghost predicate NoneGained(work: seq<Work>, m: BlockIndex.Map, work': seq<Work>, m': BlockIndex.Map) {
    m'.committed == m.committed && forall b :: Held(work', m', b) ==> Held(work, m, b)
  }

  /** What a consumer's step does to what it gives back. */
  lemma WorkAfter(cfg: Config, s: State, t: nat)
    requires cfg.Valid() && Shape(s) && Enabled(cfg, s, Consume(t))
    ensures var work' := Apply(cfg, s, Consume(t)).work;
            && |work'| == |s.work| && (forall u :: 0 <= u < |work'| && u != t ==> work'[u] == s.work[u])
            && (work'[t].Giving? <==> s.work[t].Clearing?)
            && (work'[t].Giving? ==> work'[t].b == s.work[t].b)
  {
    hide Quot, Rem, BlockIndex.Apply, BlockIndex.Shape, PutCell;
  }

  lemma ConsumeGainsNone(cfg: Config, s: State, g: Ghost, t: nat, m: BlockIndex.Map)
    requires Inv(cfg, s, g) && Shape(s) && Enabled(cfg, s, Consume(t))
    requires m == if s.work[t].Clearing? && s.ix.readers[t].Found? then g.m.(live := g.m.live - {s.ix.readers[t].lo}) else g.m
    ensures NoneGained(s.work, g.m, Apply(cfg, s, Consume(t)).work, m)
  {
    hide Quot, Rem, BlockIndex.Apply, BlockIndex.Shape, ConsumeStep, Tickets.Inv, Claims, Counts, Retired, DoneSet, Data, Owners, EnqInv;
    WorkAfter(cfg, s, t);
    PlaceAt(cfg, s, g, t);
    var work' := Apply(cfg, s, Consume(t)).work;
    if s.work[t].Clearing? { ReaderPins(|s.ix.headers|, g.m, s.ix.readers, t); }
    forall b | Held(work', m, b) ensures Held(s.work, g.m, b) {
      if GivenBySome(work', b) {
        var u :| 0 <= u < |work'| && work'[u].Giving? && work'[u].b == b;
        if u == t {
          assert g.m.live[s.ix.readers[t].lo] == b;
        } else {
          assert s.work[u].Giving?;
        }
      }
    }
  }

  lemma StepConsume(cfg: Config, s: State, g: Ghost, t: nat) returns (g': Ghost)
    requires Inv(cfg, s, g) && Shape(s) && Enabled(cfg, s, Consume(t))
    ensures Inv(cfg, Apply(cfg, s, Consume(t)), g') && g'.stream == g.stream
    ensures NoneGained(s.work, g.m, Apply(cfg, s, Consume(t)).work, g'.m)
  {
    hide BlockIndex.Inv, Tickets.Inv, Inv, ConsumeStep, BlockIndex.Shape, NoneGained;
    g' := g;
    if s.work[t].Clearing? { ClearingFacts(cfg, s, g, t); }
    ConsumeGainsNone(cfg, s, g, t, if s.work[t].Clearing? then g.m.(live := g.m.live - {s.ix.readers[t].lo}) else g.m);
    match s.work[t]
    case Looking(_, _, _, _) =>
      if s.ix.readers[t].Found? { StepLoadBlock(cfg, s, g, t); } else { StepRead(cfg, s, g, t); }
    case Moving(_, _, pos, _, _, start, end) =>
      if pos < end {
        StepMove(cfg, s, g, t);
      } else {
        StepMark(cfg, s, g, t);
        g' := g.(done := g.done + Interval(start, end));
      }
    case Clearing(_, _, _, _, _) =>
      StepClear(cfg, s, g, t);
      g' := g.(m := g.m.(live := g.m.live - {s.ix.readers[t].lo}));
    case Giving(_, _, _, _, _) => StepGive(cfg, s, g, t);
  }

  lemma StepProduce(cfg: Config, s: State, g: Ghost, choice: Choice) returns (g': Ghost)
    requires Inv(cfg, s, g) && Shape(s) && Recent(cfg, s) && ProduceEnabled(cfg, s, choice)
    ensures Inv(cfg, Advance(cfg, s, choice), g') && g'.stream == g.stream + Published(s, Produce(choice))
    ensures !s.enq.Publish? ==> Keeps(g.m, g'.m)
  {
    hide BlockIndex.Inv, Tickets.Inv, Inv, Advance, BlockIndex.Shape, Recent;
    g' := g;
    match s.enq
    case Check(_, _, _) => StepCheck(cfg, s, g, choice);
    case Insert(_, _, _) =>
      if s.ix.writer.Refused? {
        StepInsertRefused(cfg, s, g, choice);
      } else if s.ix.writer.Inserted? {
        match choice {
          case Gets(b, stale) => StepGets(cfg, s, g, b, stale);
          case Fails => g' := StepGetsNone(cfg, s, g);
        }
      } else {
        g' := StepInsertWrite(cfg, s, g, choice);
      }
    case Clean(_, _, _, _) => StepClean(cfg, s, g, choice);
    case Store(_, _, _, _) => g' := StepStore(cfg, s, g, choice);
    case Cancel(_) => StepCancel(cfg, s, g, choice);
    case Undo(_, _) => g' := StepUndo(cfg, s, g, choice);
    case Rewind(_, _) => g' := StepRewind(cfg, s, g, choice);
    case GiveBack(_, _) => StepGiveBack(cfg, s, g, choice);
    case Construct(_, _, _) => StepConstruct(cfg, s, g, choice);
    case Publish(items, _) =>
      StepPublish(cfg, s, g, choice);
      g' := g.(m := g.m.(committed := g.m.last), stream := g.stream + items);
  }

  /** Every step of every thread keeps the invariant; only publishing changes the stream,
      and it appends to it. */
  lemma StepInv(cfg: Config, s: State, g: Ghost, a: Action) returns (g': Ghost)
    requires Inv(cfg, s, g) && Shape(s) && Recent(cfg, s) && Enabled(cfg, s, a)
    ensures Inv(cfg, Apply(cfg, s, a), g') && g'.stream == g.stream + Published(s, a)
    ensures !Publishes(s, a) ==> NoneGained(s.work, g.m, Apply(cfg, s, a).work, g'.m)
  {
    assert cfg.Valid();
    hide Inv, Advance, ConsumeStep, Shape, Recent, NoneGained, Keeps, BlockIndex.Apply, Tickets.Apply, Quot, Rem;
    g' := g;
    match a
    case Enqueue(items) => StepEnqueue(cfg, s, g, items); CallGainsNone(cfg, s, g.m, a);
    case Produce(choice) =>
      g' := StepProduce(cfg, s, g, choice);
      ProduceGainsNone(cfg, s, g, choice, g'.m);
    case Dequeue(t, max) => StepDequeue(cfg, s, g, t, max); CallGainsNone(cfg, s, g.m, a);
    case Ticket(t) => g' := StepTicketOrTake(cfg, s, g, t);
    case Consume(t) => g' := StepConsume(cfg, s, g, t);
    case Return(t) => StepReturn(cfg, s, g, t); CallGainsNone(cfg, s, g.m, a);
  }

  /** The store to the tail index. */
  predicate Publishes(s: State, a: Action) {
    a.Produce? && s.enq.Publish?
  }

  lemma GivenUnchanged(work: seq<Work>, work': seq<Work>, m: BlockIndex.Map, m': BlockIndex.Map)
    requires |work'| == |work| && forall u :: 0 <= u < |work| && work'[u].Giving? ==> work'[u] == work[u]
    requires m'.committed == m.committed && LiveKept(m.live, m'.live, m.committed)
    ensures NoneGained(work, m, work', m')
  {
    forall b | Held(work', m', b) ensures Held(work, m, b) {
      if GivenBySome(work', b) {
        var u :| 0 <= u < |work'| && work'[u].Giving? && work'[u].b == b;
        assert work[u].Giving?;
      }
    }
  }

  lemma ProduceGainsNone(cfg: Config, s: State, g: Ghost, choice: Choice, m: BlockIndex.Map)
    requires cfg.Valid() && Shape(s) && ProduceEnabled(cfg, s, choice)
    ensures Keeps(g.m, m) ==> NoneGained(s.work, g.m, Apply(cfg, s, Produce(choice)).work, m)
  {
    hide Quot, Rem, BlockIndex.Apply, BlockIndex.Shape, PutCell, CircularLess;
    assert Advance(cfg, s, choice).work == s.work;
    if Keeps(g.m, m) { GivenUnchanged(s.work, s.work, g.m, m); }
  }

  lemma CallGainsNone(cfg: Config, s: State, m: BlockIndex.Map, a: Action)
    requires cfg.Valid() && Shape(s) && Enabled(cfg, s, a) && (a.Enqueue? || a.Dequeue? || a.Return?)
    ensures NoneGained(s.work, m, Apply(cfg, s, a).work, m)
  {
    hide Quot, Rem, BlockIndex.Shape, Tickets.Apply, BlockIndex.Apply;
    GivenUnchanged(s.work, Apply(cfg, s, a).work, m, m);
  }

  lemma StepTicketOrTake(cfg: Config, s: State, g: Ghost, t: nat) returns (g': Ghost)
    requires Inv(cfg, s, g) && Shape(s) && Recent(cfg, s) && Enabled(cfg, s, Ticket(t))
    ensures Inv(cfg, Apply(cfg, s, Ticket(t)), g') && g'.stream == g.stream
    ensures NoneGained(s.work, g.m, Apply(cfg, s, Ticket(t)).work, g'.m)
  {
    hide BlockIndex.Inv, BlockIndex.Apply, Tickets.Inv, Tickets.Apply, NoneGained, Recent, Claims, Places, Counts, Retired, DoneSet, Data, Owners, EnqInv, Quot, Rem;
    SizesKnown(cfg, s, g);
    g' := GhostAfter(cfg, s, g, Ticket(t));
    if s.tk.pcs[t].Take? { StepTake(cfg, s, g, t); } else { StepTicket(cfg, s, g, t); }
    GivenUnchanged(s.work, Apply(cfg, s, Ticket(t)).work, g.m, g.m);
  }

  // ------------------------------------------------------------------ no thread is ever stuck or at fault

  /** A dequeue in progress always finds what it dereferences, and every operation begun
      has a next step whatever the other threads did. */
  lemma NeverStuck(cfg: Config, s: State, g: Ghost, t: nat)
    requires Inv(cfg, s, g) && t < |s.work|
    ensures !s.work[t].Fault?
    ensures !s.tk.pcs[t].Idle? && !s.tk.pcs[t].Claimed? ==> Enabled(cfg, s, Ticket(t))
    ensures Active(s.work[t]) && !s.work[t].Done? ==> Enabled(cfg, s, Consume(t))
    ensures s.work[t].Done? ==> Enabled(cfg, s, Return(t))
    ensures s.enq == Ready || Enabled(cfg, s, Produce(Fails))
  {
    hide Quot, Rem, BlockIndex.Inv, Counts, Retired, DoneSet, Data, Owners, AllDone;
    PlaceAt(cfg, s, g, t);
    if s.tk.pcs[t].Take? { TakeFindsHeaders(cfg, s, g, t); }
    if s.enq.Undo? || s.enq.Cancel? { UndoFindsHeaders(cfg, s, g); }
  }

  lemma TakeFindsHeaders(cfg: Config, s: State, g: Ghost, t: nat)
    requires Inv(cfg, s, g) && t < |s.tk.pcs| && s.tk.pcs[t].Take?
    ensures s.ix.headers != []
  {
    hide Quot, Rem, Claims, Places, Counts, Retired, DoneSet, Data, Owners, EnqInv;
    GrantLeavesRoom(s.tk, g.log, t);
    UnclaimedBlocksAreLive(cfg, s, g, s.tk.head);
    assert |g.m.home| > 0;
  }

  lemma GrantLeavesRoom(tk: Tickets.State, log: seq<Tickets.Verdict>, t: nat)
    requires Tickets.Inv(tk, log) && t < |tk.pcs| && tk.pcs[t].Take?
    ensures tk.head < tk.tail
  {
    Tickets.HeadNeverPassesTail(tk, log);
    SumAtLeast(tk.pcs, Tickets.WonWeight(), t);
    assert Tickets.PcInv(tk, log, tk.pcs[t]);
  }

  lemma UndoFindsHeaders(cfg: Config, s: State, g: Ghost)
    requires Inv(cfg, s, g) && (s.enq.Undo? || s.enq.Cancel?)
    ensures s.enq.Undo? && s.enq.j < |s.enq.chain| ==> s.ix.headers != []
  {
    hide Quot, Rem, Claims, Places, Counts, Retired, DoneSet, Data, Owners, Tickets.Inv;
    assert g.m.last >= 0 ==> |g.m.home| > 0;
  }

  /** When the producer opens a block, the head is not beyond it, as the code asserts. */
  lemma HeadNotBeyondBlock(cfg: Config, s: State, g: Ghost)
    requires Inv(cfg, s, g) && s.enq.Check?
    ensures !CircularLess(cfg.Half(), s.enq.x * cfg.BlockSize(), s.tk.head)
  {
    hide BlockIndex.Inv, Tickets.Inv, Quot, Rem, CircularLess, Claims, Places, Counts, Retired, DoneSet, Data, Owners, ChainLive;
    HeadBehind(cfg, s, g);
    BlockSizePositive(cfg);
    if NextBlock(cfg, s.tk.tail) < s.enq.x { BlocksApart(cfg.BlockSize(), NextBlock(cfg, s.tk.tail), s.enq.x); }
    CircularLessExact(cfg.Half(), s.enq.x * cfg.BlockSize(), s.tk.head);
  }

  // ------------------------------------------------------------------ first in, first out

  /** What is published and not claimed, oldest first. */
  ghost function Contents(s: State, g: Ghost): seq<Item>
    requires s.tk.head <= |g.stream|
  {
    g.stream[s.tk.head..]
  }

  /** Each step either appends a whole batch to the queue, or removes a batch from its
      front for one consumer, or leaves it alone; and a consumer that removed a batch
      has exactly its elements when it is through. */
  lemma StepIsFifo(cfg: Config, s: State, g: Ghost, a: Action) returns (g': Ghost)
    requires Inv(cfg, s, g) && Shape(s) && Recent(cfg, s) && Enabled(cfg, s, a)
    ensures Inv(cfg, Apply(cfg, s, a), g')
    ensures s.tk.head <= |g.stream| && Apply(cfg, s, a).tk.head <= |g'.stream|
    ensures Claimed(s, a) <= |Contents(s, g)|
    ensures Contents(Apply(cfg, s, a), g') == Contents(s, g)[Claimed(s, a)..] + Published(s, a)
    ensures Claimed(s, a) > 0 ==> a.t < |Apply(cfg, s, a).work| && Apply(cfg, s, a).work[a.t] == Looking(s.tk.head, Claimed(s, a), s.tk.head, [])
  {
    assert cfg.Valid();
    hide Inv, Shape, Enabled, Apply, Recent, Claimed, Published;
    g' := StepInv(cfg, s, g, a);
    HeadInStream(cfg, s, g);
    HeadInStream(cfg, Apply(cfg, s, a), g');
    HeadAdvances(cfg, s, a);
    ClaimInStream(cfg, s, g, a);
    SliceStep(g.stream, Published(s, a), s.tk.head, Claimed(s, a));
  }

  lemma SliceStep(stream: seq<Item>, more: seq<Item>, head: nat, n: nat)
    requires head + n <= |stream|
    ensures (stream + more)[head + n..] == stream[head..][n..] + more
  {
  }

  lemma HeadInStream(cfg: Config, s: State, g: Ghost)
    requires Inv(cfg, s, g)
    ensures s.tk.head <= |g.stream|
  {
    hide BlockIndex.Inv, Tickets.Inv, Claims, Places, Counts, Retired, DoneSet, Data, Owners, EnqInv;
    Tickets.HeadNeverPassesTail(s.tk, g.log);
  }

  lemma ClaimInStream(cfg: Config, s: State, g: Ghost, a: Action)
    requires Inv(cfg, s, g)
    ensures s.tk.head + Claimed(s, a) <= |g.stream|
  {
    hide BlockIndex.Inv, Claims, Places, Counts, Retired, DoneSet, Data, Owners, EnqInv;
    Tickets.HeadNeverPassesTail(s.tk, g.log);
    if a.Ticket? && a.t < |s.tk.pcs| && s.tk.pcs[a.t].Take? {
      SumAtLeast(s.tk.pcs, Tickets.WonWeight(), a.t);
    }
  }

  lemma HeadAdvances(cfg: Config, s: State, a: Action)
    requires cfg.Valid() && Shape(s) && Enabled(cfg, s, a)
    ensures Apply(cfg, s, a).tk.head == s.tk.head + Claimed(s, a)
    ensures Claimed(s, a) > 0 ==> a.t < |Apply(cfg, s, a).work| && Apply(cfg, s, a).work[a.t] == Looking(s.tk.head, Claimed(s, a), s.tk.head, [])
  {
    hide BlockIndex.Apply, BlockIndex.Shape, Quot, Rem, CircularLess, Tickets.Decide;
  }

  /** A consumer that is through has moved out exactly the elements of its claim, each as
      it was published, in order. */
  lemma ThroughHasItsElements(cfg: Config, s: State, g: Ghost, t: nat)
    requires Inv(cfg, s, g) && t < |s.work| && s.work[t].Done?
    ensures var w := s.work[t];
            && w.first + w.count <= s.tk.head <= |g.stream| && |w.got| == w.count
            && forall j :: 0 <= j < w.count ==> w.got[j] == Full(g.stream[w.first + j])
  {
    hide BlockIndex.Inv, Tickets.Inv, Counts, Retired, DoneSet, Data, Owners, EnqInv;
    PlaceAt(cfg, s, g, t);
    ClaimBelowHead(cfg, s, g, t);
    HeadInStream(cfg, s, g);
  }

  // ------------------------------------------------------------------ runs

  ghost predicate IsStep(cfg: Config, s: State, a: Action, s': State)
    requires cfg.Valid()
  {
    Shape(s) && Recent(cfg, s) && Enabled(cfg, s, a) && s' == Apply(cfg, s, a)
  }

  /** A run in which no thread falls behind (Recent). */
  ghost predicate IsRun(cfg: Config, states: seq<State>, actions: seq<Action>)
    requires cfg.Valid()
  {
    && |states| == |actions| + 1
    && (exists memory, threads: nat :: states[0] == Initial(cfg, memory, threads))
    && (forall i :: 0 <= i < |actions| ==> IsStep(cfg, states[i], actions[i], states[i + 1]))
  }

  /** Everything published in the first `i` steps, in order. */
  function AllPublished(states: seq<State>, actions: seq<Action>, i: nat): seq<Item>
    requires i <= |actions| && i <= |states|
  {
    if i == 0 then [] else AllPublished(states, actions, i - 1) + Published(states[i - 1], actions[i - 1])
  }

  /** In every state of every run the invariant holds of what was published so far. */
  lemma {:induction false} RunInv(cfg: Config, states: seq<State>, actions: seq<Action>, i: nat) returns (g: Ghost)
    requires cfg.Valid() && IsRun(cfg, states, actions) && i < |states|
    ensures Inv(cfg, states[i], g) && g.stream == AllPublished(states, actions, i)
  {
    hide Inv, Shape, Recent, Enabled, Apply, Published;
    if i == 0 {
      var memory, threads: nat :| states[0] == Initial(cfg, memory, threads);
      g := InitialInv(cfg, memory, threads);
    } else {
      var g0 := RunInv(cfg, states, actions, i - 1);
      assert IsStep(cfg, states[i - 1], actions[i - 1], states[i]);
      g := StepInv(cfg, states[i - 1], g0, actions[i - 1]);
    }
  }

  /** Whatever the interleaving, a dequeue that is through returns consecutive published
      items, and no two in progress at once have an item in common. */
  lemma DequeuesReturnWhatWasEnqueued(cfg: Config, states: seq<State>, actions: seq<Action>, i: nat, t: nat, u: nat)
    requires cfg.Valid() && IsRun(cfg, states, actions) && i < |states|
    requires t < |states[i].work| && u < |states[i].work| && t != u
    ensures !states[i].work[t].Fault?
    ensures var w, stream := states[i].work[t], AllPublished(states, actions, i);
            w.Done? ==> w.first + w.count <= |stream| && |w.got| == w.count
                        && forall j :: 0 <= j < w.count ==> w.got[j] == Full(stream[w.first + j])
    ensures var w, v := states[i].work[t], states[i].work[u];
            Active(w) && Active(v) ==> w.first + w.count <= v.first || v.first + v.count <= w.first
  {
    hide Inv, IsRun, AllPublished;
    var g := RunInv(cfg, states, actions, i);
    NeverStuck(cfg, states[i], g, t);
    if states[i].work[t].Done? {
      ThroughHasItsElements(cfg, states[i], g, t);
    }
    if Active(states[i].work[t]) && Active(states[i].work[u]) {
      ClaimsApart(cfg, states[i], g, t, u);
    }
  }

  // ------------------------------------------------------------------ conservation of blocks

  /** A step that makes consumer `t` take a block out of the index. */
  predicate Retires(cfg: Config, s: State, t: nat)
    requires cfg.Valid() && Shape(s) && Enabled(cfg, s, Consume(t))
  {
    var work := Apply(cfg, s, Consume(t)).work;
    t < |work| && work[t].Clearing?
  }

  /** Between two moments with no enqueue in progress and no publication in between, every
      enqueue tried has failed: the tail and what is published are as before, and no
      block is held that was not held before. */
  lemma {:induction false} FailedEnqueueLeavesNothing(cfg: Config, states: seq<State>, actions: seq<Action>, i: nat, j: nat, b: BlockId)
    requires cfg.Valid() && IsRun(cfg, states, actions) && i <= j < |states|
    requires states[i].enq == Ready && states[j].enq == Ready
    requires forall k :: i <= k < j ==> !Publishes(states[k], actions[k])
    ensures AllPublished(states, actions, j) == AllPublished(states, actions, i) && states[j].tk.tail == states[i].tk.tail
    ensures b in states[j].blocks ==> b in states[i].blocks
  {
    hide Inv, IsRun, Publishes, AllPublished, Held, NoneGained;
    var g := RunInv(cfg, states, actions, i);
    var g' := RunGainsNone(cfg, states, actions, i, j, g);
    ReadyHolds(cfg, states[i], g, b);
    ReadyHolds(cfg, states[j], g', b);
    StreamIsTail(cfg, states[i], g);
    StreamIsTail(cfg, states[j], g');
    assert NoneGained(states[i].work, g.m, states[j].work, g'.m) ==> (Held(states[j].work, g'.m, b) ==> Held(states[i].work, g.m, b)) by {
      UseNoneGained(states[i].work, g.m, states[j].work, g'.m, b);
    }
  }

  lemma UseNoneGained(work: seq<Work>, m: BlockIndex.Map, work': seq<Work>, m': BlockIndex.Map, b: BlockId)
    ensures NoneGained(work, m, work', m') && Held(work', m', b) ==> Held(work, m, b)
  {
  }

  lemma StreamIsTail(cfg: Config, s: State, g: Ghost)
    requires Inv(cfg, s, g)
    ensures |g.stream| == s.tk.tail
  {
  }

  /** Between operations the blocks held are those published and those on their way back. */
  lemma ReadyHolds(cfg: Config, s: State, g: Ghost, b: BlockId)
    requires Inv(cfg, s, g) && s.enq == Ready
    ensures b in s.blocks <==> Held(s.work, g.m, b)
  {
    hide Quot, Rem, Claims, Places, Counts, Retired, DoneSet, Data, BlockIndex.Inv, Tickets.Inv;
    if b in g.m.live.Values {
      var k: nat :| k in g.m.live && g.m.live[k] == b;
    }
  }

  lemma {:induction false} RunGainsNone(cfg: Config, states: seq<State>, actions: seq<Action>, i: nat, j: nat, g: Ghost) returns (g': Ghost)
    requires cfg.Valid() && IsRun(cfg, states, actions) && i <= j < |states| && Inv(cfg, states[i], g)
    requires forall k :: i <= k < j ==> !Publishes(states[k], actions[k])
    ensures Inv(cfg, states[j], g') && g'.stream == g.stream && NoneGained(states[i].work, g.m, states[j].work, g'.m)
    ensures AllPublished(states, actions, j) == AllPublished(states, actions, i)
    decreases j
  {
    hide Inv, Shape, Recent, Enabled, Apply;
    g' := g;
    if i < j {
      var g0 := RunGainsNone(cfg, states, actions, i, j - 1, g);
      assert IsStep(cfg, states[j - 1], actions[j - 1], states[j]);
      g' := StepInv(cfg, states[j - 1], g0, actions[j - 1]);
    }
  }

  /** The consumer whose increment completes the count of block `k`, and no other, takes it
      out: exactly when the last of its elements is done. `w` is what the consumer is at. */
  lemma LastElementRetiresBlock(cfg: Config, s: State, g: Ghost, t: nat, w: Work, k: nat)
    requires Inv(cfg, s, g) && Shape(s) && Enabled(cfg, s, Consume(t))
    requires w == s.work[t] && w.Moving? && w.pos >= w.end
    requires s.ix.readers[t].Found? && s.ix.readers[t].lo == k
    ensures !AllDone(cfg.BlockSize(), g.done, k)
    ensures Retires(cfg, s, t) <==> AllDone(cfg.BlockSize(), g.done + Interval(w.start, w.end), k)
  {
    hide Quot, Rem, BlockIndex.Inv, Tickets.Inv, Claims, Places, Counts, Retired, DoneSet, Data, Owners, EnqInv, BlockIndex.Shape, BlockIndex.Apply;
    PlaceAt(cfg, s, g, t);
    MovingFacts(cfg, s, g, t);
    CountTells(cfg, s, g, t);
    MarkResult(cfg, s, t);
    HeldNotDone(s.work, s.tk.head, g.done, t, s.work[t].start, s.work[t].end);
  }

  /** With no operation in progress, the blocks held are exactly those that still contain
      a published element nobody has claimed. */
  lemma QuietBlocks(cfg: Config, s: State, g: Ghost, k: nat)
    requires Inv(cfg, s, g) && s.enq == Ready && forall t :: 0 <= t < |s.work| ==> s.work[t].Off?
    ensures k in g.m.live <==> s.tk.head < k * cfg.BlockSize() + cfg.BlockSize() && k < NextBlock(cfg, s.tk.tail)
  {
    hide BlockIndex.Inv, Tickets.Inv, Quot, Rem, Claims, Places, Counts, Data, Owners;
    var B := cfg.BlockSize();
    BlockSizePositive(cfg);
    forall i: nat | i < s.tk.head ensures i in g.done {
      assert !HeldBySome(s.work, i);
    }
    var end := k * B + B - 1;
    assert InBlock(B, k, end);
    assert AllDone(B, g.done, k) <==> end < s.tk.head;
    assert !ClearedBySome(s.work, s.ix.readers, k);
  }
}
