/** The producer thread's steps keep the invariant of ProducerInvariant: blocks are
    obtained and put into the index all or nothing, items are constructed, and one store
    to the tail index publishes them. */
module ProducerEnqueuer {
  import opened Circular
  import opened ProducerQueue
  import opened ProducerInvariant
  import opened ProducerConsumers
  import opened ProducerBlocks
  import Tickets
  import BlockIndex

  // ------------------------------------------------------------------ what consumers rely on

  /** The published blocks in use stay in use. */
  ghost predicate LiveKept(live: Live, live': Live, committed: int) {
    forall k: nat :: k <= committed ==> (k in live <==> k in live') && (k in live ==> live'[k] == live[k])
  }

  /** Nothing published changes. */
  ghost predicate Keeps(m: BlockIndex.Map, m': BlockIndex.Map) {
    m'.committed == m.committed && LiveKept(m.live, m'.live, m.committed)
  }

  ghost predicate BlocksKept(blocks: Pool, blocks': Pool, live: Live, committed: int) {
    forall k: nat :: k in live && k <= committed && live[k] in blocks ==> live[k] in blocks' && blocks'[live[k]] == blocks[live[k]]
  }

  lemma PlacesKeptLive(B: nat, work: seq<Work>, readers: seq<BlockIndex.Reader>, live: Live, live': Live, committed: int, done: set<nat>)
    requires Places(B, work, readers, live, done) && LiveKept(live, live', committed)
    requires forall t :: 0 <= t < |readers| && !readers[t].Off? ==> readers[t].lo <= committed
    ensures Places(B, work, readers, live', done)
  {
    hide Quot, Rem, AllDone, InBlock;
    forall t | 0 <= t < |work| ensures PlaceInv(B, work[t], readers[t], live', done) {
      assert PlaceInv(B, work[t], readers[t], live, done);
    }
  }

  lemma CountsKept(B: nat, blocks: Pool, blocks': Pool, live: Live, live': Live, committed: int, done: set<nat>)
    requires Counts(B, blocks, live, committed, done) && LiveKept(live, live', committed) && BlocksKept(blocks, blocks', live, committed)
    ensures Counts(B, blocks', live', committed, done)
  {
    forall k | k in live' && k <= committed ensures BlockInv(B, blocks', live', done, k) {
      assert BlockInv(B, blocks, live, done, k);
    }
  }

  lemma StoredKept(cfg: Config, blocks: Pool, blocks': Pool, live: Live, live': Live, stream: seq<Item>, committed: int, i: nat)
    requires cfg.Valid() && Stored(cfg.BlockSize(), blocks, live, stream, i) && committed + 1 == NextBlock(cfg, |stream|)
    requires LiveKept(live, live', committed) && BlocksKept(blocks, blocks', live, committed)
    ensures Stored(cfg.BlockSize(), blocks', live', stream, i)
  {
    hide Quot, Rem;
    OwnBlock(cfg.BlockSize(), i);
    BeforeNextBlock(cfg, |stream|, Quot(i, cfg.BlockSize()), i);
  }

  lemma DataKept(cfg: Config, blocks: Pool, blocks': Pool, work: seq<Work>, head: nat, live: Live, live': Live, stream: seq<Item>, committed: int)
    requires cfg.Valid() && Data(cfg.BlockSize(), blocks, work, head, live, stream) && committed + 1 == NextBlock(cfg, |stream|)
    requires LiveKept(live, live', committed) && BlocksKept(blocks, blocks', live, committed)
    ensures Data(cfg.BlockSize(), blocks', work, head, live', stream)
  {
    hide Quot, Rem, Stored, LiveKept, BlocksKept, Unmoved;
    forall i: nat | head <= i < |stream| ensures Stored(cfg.BlockSize(), blocks', live', stream, i) {
      StoredKept(cfg, blocks, blocks', live, live', stream, committed, i);
    }
    forall t, i: nat | 0 <= t < |work| && Unmoved(work[t], i) ensures Stored(cfg.BlockSize(), blocks', live', stream, i) {
      StoredKept(cfg, blocks, blocks', live, live', stream, committed, i);
    }
  }

  lemma ReadersBelow(cfg: Config, ix: BlockIndex.State, m: BlockIndex.Map)
    requires BlockIndex.Inv(cfg, ix, m)
    ensures forall t :: 0 <= t < |ix.readers| && !ix.readers[t].Off? ==> ix.readers[t].lo <= m.committed
  {
    forall t | 0 <= t < |ix.readers| && !ix.readers[t].Off? ensures ix.readers[t].lo <= m.committed {
      assert BlockIndex.ReaderInv(|ix.headers|, m, ix.readers[t]);
    }
  }

  /** The producer thread moves on without touching what is published. */
  lemma ProducerMoves(cfg: Config, s: State, g: Ghost, e: Enqueuer, ix: BlockIndex.State, blocks: Pool, m: BlockIndex.Map)
    requires Inv(cfg, s, g)
    requires BlockIndex.Inv(cfg, ix, m) && ix.readers == s.ix.readers
    requires m.committed == g.m.committed && LiveKept(g.m.live, m.live, m.committed)
    requires BlocksKept(s.blocks, blocks, g.m.live, m.committed)
    requires Owners(blocks, s.work, e, m.live)
    requires EnqInv(cfg, s.tk.tail, s.tk.head, s.tailBlock, e, ix.writer, blocks, m)
    ensures Inv(cfg, s.(enq := e, ix := ix, blocks := blocks), g.(m := m))
  {
    hide Quot, Rem, BlockIndex.Inv, Tickets.Inv, Claims, Places, Counts, DoneSet, Data, Owners, EnqInv, LiveKept, BlocksKept;
    ReadersBelow(cfg, ix, m);
    PlacesKeptLive(cfg.BlockSize(), s.work, s.ix.readers, g.m.live, m.live, m.committed, g.done);
    CountsKept(cfg.BlockSize(), s.blocks, blocks, g.m.live, m.live, m.committed, g.done);
    DataKept(cfg, s.blocks, blocks, s.work, s.tk.head, g.m.live, m.live, g.stream, m.committed);
    RetiredKept(cfg.BlockSize(), s.work, s.ix.readers, g.m.live, m.live, m.committed, g.done);
  }

  lemma RetiredKept(B: nat, work: seq<Work>, readers: seq<BlockIndex.Reader>, live: Live, live': Live, committed: int, done: set<nat>)
    requires Retired(B, work, readers, live, committed, done) && LiveKept(live, live', committed)
    ensures Retired(B, work, readers, live', committed, done)
  {
    hide AllDone, ClearedBySome;
  }

  /** The head stays behind the blocks not yet committed. */
  lemma HeadBehind(cfg: Config, s: State, g: Ghost)
    requires Base(cfg, s, g)
    ensures s.tk.head <= s.tk.tail <= NextBlock(cfg, s.tk.tail) * cfg.BlockSize()
  {
    hide BlockIndex.Inv, Quot, Rem;
    Tickets.HeadNeverPassesTail(s.tk, g.log);
    NextBlockBounds(cfg, s.tk.tail);
  }

  // ------------------------------------------------------------------ steps within the thread

  lemma NextBlockMonotone(cfg: Config, a: nat, b: nat)
    requires cfg.Valid() && a <= b
    ensures NextBlock(cfg, a) <= NextBlock(cfg, b)
  {
    hide Quot, Rem;
    NextBlockBounds(cfg, a);
    NextBlockBounds(cfg, b);
    if NextBlock(cfg, b) < NextBlock(cfg, a) {
      BlocksApart(cfg.BlockSize(), NextBlock(cfg, b), NextBlock(cfg, a));
    }
  }

  /** Neither blocks nor the index change, and nothing private changes hands. */
  lemma EnqMoves(cfg: Config, s: State, g: Ghost, e: Enqueuer)
    requires Inv(cfg, s, g)
    requires ChainOf(e) == ChainOf(s.enq) && (forall b :: Private(e, b) <==> Private(s.enq, b))
    requires IndexPlace(e, s.ix.writer, NextBlock(cfg, s.tk.tail), g.m.last, g.m.committed)
    requires ProgressInv(cfg, s.tk.tail, s.tk.head, s.tailBlock, e, s.blocks)
    ensures Inv(cfg, SetEnq(s, e), g)
  {
    hide Quot, Rem, BlockIndex.Inv, Tickets.Inv, Claims, Places, Counts, Retired, DoneSet, Data, IndexPlace, ProgressInv, ChainLive, Private;
  }

  lemma StepEnqueue(cfg: Config, s: State, g: Ghost, items: seq<Item>)
    requires Inv(cfg, s, g) && Shape(s) && s.enq == Ready
    ensures Inv(cfg, Apply(cfg, s, Enqueue(items)), g)
  {
    hide Quot, Rem, BlockIndex.Inv, Tickets.Inv, Claims, Places, Counts, Retired, DoneSet, Data, Owners;
    NextBlockMonotone(cfg, s.tk.tail, s.tk.tail + |items|);
    EnqMoves(cfg, s, g, Check(items, NextBlock(cfg, s.tk.tail), []));
  }

  // ------------------------------------------------------------------ opening blocks

  /** The test against the head is exact: it leaves room for one more block. */
  lemma RoomTest(cfg: Config, s: State, g: Ghost, x: nat)
    requires Base(cfg, s, g) && NextBlock(cfg, s.tk.tail) <= x && Room(cfg, s.tk.head, x)
    ensures CircularLess(cfg.Half(), s.tk.head, x * cfg.BlockSize() + cfg.BlockSize()) <==> Room(cfg, s.tk.head, x + 1)
  {
    hide Quot, Rem, BlockIndex.Inv, Tickets.Inv, CircularLess;
    var B, x0 := cfg.BlockSize(), NextBlock(cfg, s.tk.tail);
    HeadBehind(cfg, s, g);
    BlockSizePositive(cfg);
    if x0 < x { BlocksApart(B, x0, x); }
    assert (x + 1) * B == x * B + B;
    CircularLessExact(cfg.Half(), s.tk.head, x * B + B);
  }

  /** More blocks are needed exactly while the next one starts before the last item's end. */
  lemma NeededTest(cfg: Config, tail: nat, items: seq<Item>, x: nat)
    requires cfg.Valid() && x <= Needed(cfg, tail, items)
    ensures x * cfg.BlockSize() >= tail + |items| <==> x == Needed(cfg, tail, items)
  {
    hide Quot, Rem;
    NextBlockBounds(cfg, tail + |items|);
    if x < Needed(cfg, tail, items) {
      BlocksApart(cfg.BlockSize(), x, Needed(cfg, tail, items));
    }
  }

  /** Between operations on the index exactly the blocks inserted are in use beyond the committed ones. */
  lemma CheckIsSettled(B: nat, x0: nat, blocks: Pool, m: BlockIndex.Map, chain: seq<BlockId>)
    requires ChainLive(B, x0, blocks, m.live, m.committed, chain, 0)
    requires m.committed + 1 == x0 && m.last == x0 + |chain| - 1
    ensures BlockIndex.Settled(m)
  {
    forall z: nat | m.committed < z < |m.home| ensures z in m.live <==> z < m.last + 1 {
      if z <= m.last {
        var i: nat := z - x0;
        assert ChainAt(B, x0, blocks, m.live, chain, i);
      }
    }
  }

  lemma StepCheck(cfg: Config, s: State, g: Ghost, choice: Choice)
    requires Inv(cfg, s, g) && Shape(s) && s.enq.Check? && ProduceEnabled(cfg, s, choice)
    ensures Inv(cfg, Advance(cfg, s, choice), g)
  {
    hide Quot, Rem, BlockIndex.Inv, Tickets.Inv, Claims, Places, Counts, Retired, DoneSet, Data, Owners, CircularLess;
    var B, x0, items, x, chain := cfg.BlockSize(), NextBlock(cfg, s.tk.tail), s.enq.items, s.enq.x, s.enq.chain;
    BlockSizePositive(cfg);
    NeededTest(cfg, s.tk.tail, items, x);
    RoomTest(cfg, s, g, x);
    if x * B >= s.tk.tail + |items| {
      EnqMoves(cfg, s, g, Construct(items, chain, 0));
    } else if !CircularLess(cfg.Half(), s.tk.head, x * B + B) {
      EnqMoves(cfg, s, g, Undo(chain, 0));
    } else {
      CheckIsSettled(B, x0, s.blocks, g.m, chain);
      BlockIndex.StepInv(cfg, s.ix, g.m, BlockIndex.BeginInsert(x));
      OwnersOther(s.blocks, s.work, s.enq, Insert(items, x, chain), g.m.live);
      ProducerMoves(cfg, s, g, Insert(items, x, chain), s.ix.(writer := BlockIndex.Look(x)), s.blocks, g.m);
    }
  }

  lemma OwnersOther(blocks: Pool, work: seq<Work>, e: Enqueuer, e': Enqueuer, live: Live)
    requires Owners(blocks, work, e, live) && forall b :: Private(e, b) <==> Private(e', b)
    ensures Owners(blocks, work, e', live)
  {
    hide Private, GivenBySome, GivenOnce;
  }

  // ------------------------------------------------------------------ inserting a block into the index

  /** No block in use is so old that the index could not grow: each has an element that is
      not done, or a consumer still clearing it. */
  lemma NearEnough(cfg: Config, s: State, g: Ghost, k: nat)
    requires Inv(cfg, s, g) && Recent(cfg, s) && s.enq.Insert? && k in g.m.live
    ensures (s.enq.x - k) * cfg.BlockSize() < 2 * cfg.Half()
  {
    hide Quot, Rem, BlockIndex.Inv, Tickets.Inv, Claims, Places, Counts, Data, Owners, EnqInv;
    var B, x, x0 := cfg.BlockSize(), s.enq.x, NextBlock(cfg, s.tk.tail);
    HeadBehind(cfg, s, g);
    InsertRoom(cfg, s, g);
    var j: int := k;
    Distribute(x, -j, B);
    if k >= x0 {
      if x0 < k { BlocksApart(B, x0, k); }
    } else if AllDone(B, g.done, k) {
      assert ClearedBySome(s.work, s.ix.readers, k);
      var t :| 0 <= t < |s.work| && s.work[t].Clearing? && s.ix.readers[t].Found? && s.ix.readers[t].lo == k;
      PlaceAt(cfg, s, g, t);
      WorkerNear(cfg, s, t, k, s.work[t].pos - 1);
    } else {
      var i: nat :| InBlock(B, k, i) && i !in g.done;
      if i < s.tk.head {
        assert HeldBySome(s.work, i);
        var t :| 0 <= t < |s.work| && Holds(s.work[t], i);
        PlaceAt(cfg, s, g, t);
        WorkerNear(cfg, s, t, k, i);
      }
    }
  }

  lemma InsertRoom(cfg: Config, s: State, g: Ghost)
    requires Inv(cfg, s, g) && s.enq.Insert?
    ensures s.enq.x * cfg.BlockSize() + cfg.BlockSize() < s.tk.head + cfg.Half()
  {
    hide Quot, Rem, BlockIndex.Inv, Tickets.Inv, Claims, Places, Counts, Data, Owners, DoneSet, Retired;
    assert (s.enq.x + 1) * cfg.BlockSize() == s.enq.x * cfg.BlockSize() + cfg.BlockSize();
  }

  lemma WorkerNear(cfg: Config, s: State, t: nat, k: nat, i: nat)
    requires cfg.Valid() && Recent(cfg, s) && s.enq.Insert? && t < |s.work| && Active(s.work[t])
    requires s.work[t].first <= i && InBlock(cfg.BlockSize(), k, i)
    ensures (s.enq.x - k) * cfg.BlockSize() < 2 * cfg.Half()
  {
    hide Quot, Rem, Tickets.Timely;
    var B, l := cfg.BlockSize(), Quot(s.work[t].first, cfg.BlockSize());
    BlockSizePositive(cfg);
    OwnBlock(B, s.work[t].first);
    BlocksOrdered(B, l, k, s.work[t].first, i);
    Distribute(s.enq.x - k, k - l, B);
    assert (k - l) * B >= 0;
  }

  lemma StepInsertWrite(cfg: Config, s: State, g: Ghost, choice: Choice) returns (g': Ghost)
    requires Inv(cfg, s, g) && Shape(s) && Recent(cfg, s) && s.enq.Insert? && ProduceEnabled(cfg, s, choice)
    requires !s.ix.writer.Refused? && !s.ix.writer.Inserted?
    ensures Inv(cfg, Advance(cfg, s, choice), g') && g' == g.(m := g'.m) && Keeps(g.m, g'.m)
  {
    hide Quot, Rem, Tickets.Inv, Claims, Places, Counts, Retired, DoneSet, Data, Recent, Owners, TailBlockInv, ChainLive, Room;
    var a := BlockIndex.Write(choice.Gets?);
    forall k | k in g.m.live ensures (s.enq.x - k) * cfg.BlockSize() < 2 * cfg.Half() {
      NearEnough(cfg, s, g, k);
    }
    BlockIndex.StepInv(cfg, s.ix, g.m, a);
    var m := BlockIndex.MapAfter(cfg, s.ix, g.m, a);
    g' := g.(m := m);
    InsertPlace(cfg, s.ix, g.m, choice.Gets?);
    ProducerMoves(cfg, s, g, s.enq, BlockIndex.Apply(cfg, s.ix, a), s.blocks, m);
  }

  /** A step of an insertion leaves the blocks in use alone. */
  lemma InsertPlace(cfg: Config, ix: BlockIndex.State, m: BlockIndex.Map, memory: bool)
    requires cfg.Valid() && BlockIndex.Shape(ix) && |m.bits| == |m.offs| == |m.tops| == |ix.headers|
    requires ix.writer.Look? || ix.writer.Grow? || ix.writer.PutKey? || ix.writer.PutTail?
    requires BlockIndex.Enabled(ix, BlockIndex.Write(memory))
    ensures var ix', m' := BlockIndex.Apply(cfg, ix, BlockIndex.Write(memory)), BlockIndex.MapAfter(cfg, ix, m, BlockIndex.Write(memory));
            && ix'.readers == ix.readers && m'.live == m.live && m'.committed == m.committed
            && m'.last == (if ix.writer.PutTail? then ix.writer.x else m.last)
            && (ix'.writer.Refused? || ((ix'.writer.Grow? || ix'.writer.PutKey? || ix'.writer.PutTail? || ix'.writer.Inserted?) && ix'.writer.x == ix.writer.x))
            && (ix'.writer.Inserted? <==> ix.writer.PutTail?)
  {
    hide Quot, Rem;
  }

  /** No allocation: what was inserted is to be undone. */
  lemma StepInsertRefused(cfg: Config, s: State, g: Ghost, choice: Choice)
    requires Inv(cfg, s, g) && Shape(s) && s.enq.Insert? && ProduceEnabled(cfg, s, choice) && s.ix.writer.Refused?
    ensures Inv(cfg, Advance(cfg, s, choice), g)
  {
    hide Quot, Rem, BlockIndex.Inv, Tickets.Inv, Claims, Places, Counts, Retired, DoneSet, Data, Owners;
    BlockIndex.StepInv(cfg, s.ix, g.m, BlockIndex.Return);
    OwnersOther(s.blocks, s.work, s.enq, Undo(s.enq.chain, 0), g.m.live);
    ProducerMoves(cfg, s, g, Undo(s.enq.chain, 0), s.ix.(writer := BlockIndex.Rest), s.blocks, g.m);
  }

  // ------------------------------------------------------------------ obtaining a block

  /** A block is obtained: it was nobody's, and is the producer thread's now. */
  lemma ObtainedOwners(blocks: Pool, blocks': Pool, work: seq<Work>, e: Enqueuer, e': Enqueuer, live: Live, b: BlockId)
    requires Owners(blocks, work, e, live) && b !in blocks && blocks'.Keys == blocks.Keys + {b}
    requires forall c :: !Private(e, c) && (Private(e', c) <==> c == b)
    ensures Owners(blocks', work, e', live)
    ensures b !in live.Values
  {
    hide GivenBySome, GivenOnce;
  }

  lemma StepGets(cfg: Config, s: State, g: Ghost, b: BlockId, stale: Block)
    requires Inv(cfg, s, g) && Shape(s) && s.enq.Insert? && ProduceEnabled(cfg, s, Gets(b, stale)) && s.ix.writer.Inserted?
    ensures Inv(cfg, Advance(cfg, s, Gets(b, stale)), g)
  {
    hide Quot, Rem, BlockIndex.Inv, Tickets.Inv, Claims, Places, Counts, Retired, DoneSet, Data;
    var e := Clean(s.enq.items, s.enq.x, s.enq.chain, b);
    var blocks := s.blocks[b := stale];
    ObtainedOwners(s.blocks, blocks, s.work, s.enq, e, g.m.live, b);
    assert forall k <- g.m.live :: g.m.live[k] in g.m.live.Values;
    ChainOutside(cfg.BlockSize(), NextBlock(cfg, s.tk.tail), s.blocks, blocks, g.m.live, g.m.committed, s.enq.chain, b);
    ProducerMoves(cfg, s, g, e, s.ix, blocks, g.m);
  }

  /** A block outside the index changes without effect on those in it. */
  lemma ChainOutside(B: nat, x0: nat, blocks: Pool, blocks': Pool, live: Live, committed: int, chain: seq<BlockId>, b: BlockId)
    requires ChainLive(B, x0, blocks, live, committed, chain, 0) && b !in live.Values
    requires forall c :: c in blocks && c != b ==> c in blocks' && blocks'[c] == blocks[c]
    ensures ChainLive(B, x0, blocks', live, committed, chain, 0)
  {
    forall i: nat | i < |chain| ensures ChainAt(B, x0, blocks', live, chain, i) {
      assert ChainAt(B, x0, blocks, live, chain, i);
      assert live[x0 + i] in live.Values;
    }
  }

  /** The requisition failed: the tail slot is rewound. */
  lemma StepGetsNone(cfg: Config, s: State, g: Ghost) returns (g': Ghost)
    requires Inv(cfg, s, g) && Shape(s) && s.enq.Insert? && ProduceEnabled(cfg, s, Fails) && s.ix.writer.Inserted?
    ensures Inv(cfg, Advance(cfg, s, Fails), g') && g' == g.(m := g'.m) && Keeps(g.m, g'.m)
  {
    hide Quot, Rem, Tickets.Inv, Claims, Places, Counts, Retired, DoneSet, Data, Owners;
    BlockIndex.StepInv(cfg, s.ix, g.m, BlockIndex.Abandon);
    var m := g.m.(last := g.m.last - 1);
    g' := g.(m := m);
    OwnersOther(s.blocks, s.work, s.enq, Cancel(s.enq.chain), g.m.live);
    ProducerMoves(cfg, s, g, Cancel(s.enq.chain), BlockIndex.Apply(cfg, s.ix, BlockIndex.Abandon), s.blocks, m);
  }

  lemma StepCancel(cfg: Config, s: State, g: Ghost, choice: Choice)
    requires Inv(cfg, s, g) && Shape(s) && s.enq.Cancel? && ProduceEnabled(cfg, s, choice)
    ensures Inv(cfg, Advance(cfg, s, choice), g)
  {
    hide Quot, Rem, BlockIndex.Inv, Tickets.Inv, Claims, Places, Counts, Retired, DoneSet, Data, Owners;
    SizesKnown(cfg, s, g);
    BlockIndex.StepInv(cfg, s.ix, g.m, BlockIndex.Write(true));
    OwnersOther(s.blocks, s.work, s.enq, Undo(s.enq.chain, 0), g.m.live);
    ProducerMoves(cfg, s, g, Undo(s.enq.chain, 0), BlockIndex.Apply(cfg, s.ix, BlockIndex.Write(true)), s.blocks, g.m);
  }

  lemma SizesKnown(cfg: Config, s: State, g: Ghost)
    requires BlockIndex.Inv(cfg, s.ix, g.m)
    ensures |g.m.bits| == |g.m.offs| == |g.m.tops| == |s.ix.headers|
  {
  }

  /** The new block's count is reset before it is used. */
  lemma StepClean(cfg: Config, s: State, g: Ghost, choice: Choice)
    requires Inv(cfg, s, g) && Shape(s) && s.enq.Clean? && ProduceEnabled(cfg, s, choice)
    ensures Inv(cfg, Advance(cfg, s, choice), g)
  {
    hide Quot, Rem, BlockIndex.Inv, Tickets.Inv, Claims, Places, Counts, Retired, DoneSet, Data, ChainLive, GivenBySome, GivenOnce;
    var e := Store(s.enq.items, s.enq.x, s.enq.chain, s.enq.b);
    var blocks := s.blocks[s.enq.b := s.blocks[s.enq.b].(empties := 0)];
    assert Private(s.enq, s.enq.b);
    assert forall k <- g.m.live :: g.m.live[k] in g.m.live.Values;
    OwnersSame(s.blocks, blocks, s.work, s.enq, e, g.m.live);
    ChainOutside(cfg.BlockSize(), NextBlock(cfg, s.tk.tail), s.blocks, blocks, g.m.live, g.m.committed, s.enq.chain, s.enq.b);
    ProducerMoves(cfg, s, g, e, s.ix, blocks, g.m);
  }

  lemma OwnersSame(blocks: Pool, blocks': Pool, work: seq<Work>, e: Enqueuer, e': Enqueuer, live: Live)
    requires Owners(blocks, work, e, live) && blocks'.Keys == blocks.Keys && forall b :: Private(e, b) <==> Private(e', b)
    ensures Owners(blocks', work, e', live)
  {
    hide Private, GivenBySome, GivenOnce;
  }

  /** The thread's private block goes into the index. */
  lemma StoredOwners(blocks: Pool, work: seq<Work>, e: Enqueuer, e': Enqueuer, live: Live, x: nat, b: BlockId)
    requires Owners(blocks, work, e, live) && x !in live
    requires forall c :: (Private(e, c) <==> c == b) && !Private(e', c)
    ensures Owners(blocks, work, e', live[x := b])
    ensures b in blocks && b !in live.Values
  {
    hide GivenBySome, GivenOnce;
    var live' := live[x := b];
    assert Private(e, b);
    assert live'[x] == b;
    forall c ensures c in live'.Values <==> c in live.Values || c == b {
      if c in live.Values {
        var l :| l in live && live[l] == c;
        assert live'[l] == c;
      }
    }
  }

  lemma StepStore(cfg: Config, s: State, g: Ghost, choice: Choice) returns (g': Ghost)
    requires Inv(cfg, s, g) && Shape(s) && s.enq.Store? && ProduceEnabled(cfg, s, choice)
    ensures Inv(cfg, Advance(cfg, s, choice), g') && g' == g.(m := g'.m) && Keeps(g.m, g'.m)
  {
    hide Quot, Rem, BlockIndex.Inv, Tickets.Inv, Claims, Places, Counts, Retired, DoneSet, Data, CleanBlock, GivenBySome, GivenOnce;
    var items, x, chain, b := s.enq.items, s.enq.x, s.enq.chain, s.enq.b;
    var e := Check(items, x + 1, chain + [b]);
    var m := g.m.(live := g.m.live[x := b]);
    g' := g.(m := m);
    SizesKnown(cfg, s, g);
    StoredOwners(s.blocks, s.work, s.enq, e, g.m.live, x, b);
    BlockIndex.StepInv(cfg, s.ix, g.m, BlockIndex.Fill(b));
    ChainExtends(cfg.BlockSize(), NextBlock(cfg, s.tk.tail), s.blocks, g.m.live, g.m.committed, chain, b);
    ProducerMoves(cfg, s, g, e, BlockIndex.Apply(cfg, s.ix, BlockIndex.Fill(b)), s.blocks, m);
  }

  lemma ChainExtends(B: nat, x0: nat, blocks: Pool, live: Live, committed: int, chain: seq<BlockId>, b: BlockId)
    requires ChainLive(B, x0, blocks, live, committed, chain, 0) && b !in live.Values && CleanBlock(B, blocks, b)
    requires committed < x0
    ensures ChainLive(B, x0, blocks, live[x0 + |chain| := b], committed, chain + [b], 0)
  {
    var live', chain' := live[x0 + |chain| := b], chain + [b];
    assert forall k <- live :: live[k] in live.Values;
    forall i: nat | i < |chain'| ensures ChainAt(B, x0, blocks, live', chain', i) {
      assert i < |chain| ==> ChainAt(B, x0, blocks, live, chain, i);
    }
    forall i: nat, j: nat | i < j < |chain'| ensures chain'[i] != chain'[j] {
      assert ChainAt(B, x0, blocks, live, chain, i);
    }
  }

  // ------------------------------------------------------------------ rolling back

  lemma UndoneOwners(blocks: Pool, work: seq<Work>, chain: seq<BlockId>, j: nat, live: Live, x: nat)
    requires Owners(blocks, work, Undo(chain, j), live) && j < |chain| && Injective(live) && x in live && live[x] == chain[j]
    ensures Owners(blocks, work, Rewind(chain, j), live - {x})
  {
    hide GivenBySome, GivenOnce;
    var b := chain[j];
    var live' := live - {x};
    assert b in live.Values && b !in live'.Values;
    assert chain[..j + 1] == chain[..j] + [b];
    forall c ensures c in live.Values <==> c in live'.Values || c == b {
      if c in live.Values && c != b {
        var l :| l in live && live[l] == c;
        assert l in live' && live'[l] == c;
      }
    }
  }

  lemma UndoneChain(B: nat, x0: nat, blocks: Pool, live: Live, committed: int, chain: seq<BlockId>, j: nat)
    requires ChainLive(B, x0, blocks, live, committed, chain, j) && j < |chain| && committed < x0
    ensures x0 + j in live && live[x0 + j] == chain[j]
    ensures ChainLive(B, x0, blocks, live - {x0 + j}, committed, chain, j + 1)
  {
    hide CleanBlock;
    assert ChainAt(B, x0, blocks, live, chain, j);
    var live' := live - {x0 + j};
    forall i: nat | j + 1 <= i < |chain| ensures ChainAt(B, x0, blocks, live', chain, i) {
      assert ChainAt(B, x0, blocks, live, chain, i);
    }
  }

  lemma StepUndo(cfg: Config, s: State, g: Ghost, choice: Choice) returns (g': Ghost)
    requires Inv(cfg, s, g) && Shape(s) && s.enq.Undo? && ProduceEnabled(cfg, s, choice)
    ensures Inv(cfg, Advance(cfg, s, choice), g') && g' == g.(m := g'.m) && Keeps(g.m, g'.m)
  {
    hide Quot, Rem, BlockIndex.Inv, Tickets.Inv, Claims, Places, Counts, Retired, DoneSet, Data, Owners, CleanBlock;
    g' := g;
    if s.enq.j >= |s.enq.chain| {
      EnqMoves(cfg, s, g, GiveBack(s.enq.chain, 0));
    } else {
      var x: nat := NextBlock(cfg, s.tk.tail) + s.enq.j;
      g' := g.(m := g.m.(live := g.m.live - {x}));
      UndoneIndex(cfg, s, g, x);
      UndoneEnq(cfg, s, g, x);
      ProducerMoves(cfg, s, g, Rewind(s.enq.chain, s.enq.j), BlockIndex.Apply(cfg, s.ix, BlockIndex.UndoNull(x)), s.blocks, g'.m);
    }
  }

  lemma UndoneEnq(cfg: Config, s: State, g: Ghost, x: nat)
    requires Inv(cfg, s, g) && s.enq.Undo? && s.enq.j < |s.enq.chain| && x == NextBlock(cfg, s.tk.tail) + s.enq.j
    ensures x in g.m.live && g.m.committed < x && g.m.committed < g.m.last
    ensures Owners(s.blocks, s.work, Rewind(s.enq.chain, s.enq.j), g.m.live - {x})
    ensures EnqInv(cfg, s.tk.tail, s.tk.head, s.tailBlock, Rewind(s.enq.chain, s.enq.j), BlockIndex.Unwind(x), s.blocks, g.m.(live := g.m.live - {x}))
  {
    hide Quot, Rem, BlockIndex.Inv, Tickets.Inv, Claims, Places, Counts, Retired, DoneSet, Data, Owners, CleanBlock;
    LivesInjective(cfg, s, g);
    UndoneChain(cfg.BlockSize(), NextBlock(cfg, s.tk.tail), s.blocks, g.m.live, g.m.committed, s.enq.chain, s.enq.j);
    UndoneOwners(s.blocks, s.work, s.enq.chain, s.enq.j, g.m.live, x);
  }

  lemma UndoneIndex(cfg: Config, s: State, g: Ghost, x: nat)
    requires Inv(cfg, s, g) && Shape(s) && s.enq.Undo? && s.enq.j < |s.enq.chain| && x == NextBlock(cfg, s.tk.tail) + s.enq.j
    requires BlockIndex.Enabled(s.ix, BlockIndex.UndoNull(x))
    ensures var ix := BlockIndex.Apply(cfg, s.ix, BlockIndex.UndoNull(x));
            BlockIndex.Inv(cfg, ix, g.m.(live := g.m.live - {x})) && ix.writer == BlockIndex.Unwind(x) && ix.readers == s.ix.readers
  {
    hide Quot, Rem, BlockIndex.Inv, Tickets.Inv, Claims, Places, Counts, Retired, DoneSet, Data, Owners, EnqInv;
    SizesKnown(cfg, s, g);
    UndoneEnq(cfg, s, g, x);
    BlockIndex.StepInv(cfg, s.ix, g.m, BlockIndex.UndoNull(x));
    BlockIndex.UndoFindsEntry(cfg, s.ix, g.m, x);
  }

  lemma StepRewind(cfg: Config, s: State, g: Ghost, choice: Choice) returns (g': Ghost)
    requires Inv(cfg, s, g) && Shape(s) && s.enq.Rewind? && ProduceEnabled(cfg, s, choice)
    ensures Inv(cfg, Advance(cfg, s, choice), g') && g' == g.(m := g'.m) && Keeps(g.m, g'.m)
  {
    hide Quot, Rem, BlockIndex.Inv, Tickets.Inv, Claims, Places, Counts, Retired, DoneSet, Data, Owners;
    var e := Undo(s.enq.chain, s.enq.j + 1);
    var m := g.m.(last := g.m.last - 1);
    g' := g.(m := m);
    SizesKnown(cfg, s, g);
    BlockIndex.StepInv(cfg, s.ix, g.m, BlockIndex.Write(true));
    OwnersOther(s.blocks, s.work, s.enq, e, g.m.live);
    ProducerMoves(cfg, s, g, e, BlockIndex.Apply(cfg, s.ix, BlockIndex.Write(true)), s.blocks, m);
  }

  lemma GivenBackOwners(blocks: Pool, work: seq<Work>, chain: seq<BlockId>, j: nat, live: Live)
    requires Owners(blocks, work, GiveBack(chain, j), live) && j < |chain| && Distinct(chain)
    ensures Owners(blocks - {chain[j]}, work, GiveBack(chain, j + 1), live)
    ensures chain[j] !in live.Values
  {
    hide GivenBySome, GivenOnce, Private;
    GivenBackPrivate(chain, j);
    assert Private(GiveBack(chain, j), chain[j]);
  }

  lemma GivenBackPrivate(chain: seq<BlockId>, j: nat)
    requires j < |chain| && Distinct(chain)
    ensures Private(GiveBack(chain, j), chain[j])
    ensures forall c :: Private(GiveBack(chain, j + 1), c) <==> Private(GiveBack(chain, j), c) && c != chain[j]
  {
    assert chain[j..] == [chain[j]] + chain[j + 1..];
  }

  lemma StepGiveBack(cfg: Config, s: State, g: Ghost, choice: Choice)
    requires Inv(cfg, s, g) && Shape(s) && s.enq.GiveBack? && ProduceEnabled(cfg, s, choice)
    ensures Inv(cfg, Advance(cfg, s, choice), g)
  {
    hide Quot, Rem, BlockIndex.Inv, Tickets.Inv, Claims, Places, Counts, Retired, DoneSet, Data, Owners;
    var chain, j := s.enq.chain, s.enq.j;
    if j >= |chain| {
      OwnersOther(s.blocks, s.work, s.enq, Ready, g.m.live);
      ProducerMoves(cfg, s, g, Ready, s.ix, s.blocks, g.m);
    } else {
      GivenBackOwners(s.blocks, s.work, chain, j, g.m.live);
      assert forall k <- g.m.live :: g.m.live[k] in g.m.live.Values;
      ProducerMoves(cfg, s, g, GiveBack(chain, j + 1), s.ix, s.blocks - {chain[j]}, g.m);
    }
  }

  // ------------------------------------------------------------------ constructing the items

  /** A block in use has all its cells. */
  lemma LiveBlockHasCells(cfg: Config, s: State, g: Ghost, k: nat)
    requires Inv(cfg, s, g) && s.enq.Construct? && k in g.m.live
    ensures g.m.live[k] in s.blocks && |s.blocks[g.m.live[k]].cells| == cfg.BlockSize()
  {
    hide Quot, Rem, BlockIndex.Inv, Tickets.Inv, Claims, Places, Retired, DoneSet, Data, Owners;
    var x0 := NextBlock(cfg, s.tk.tail);
    if k <= g.m.committed {
      assert BlockInv(cfg.BlockSize(), s.blocks, g.m.live, g.done, k);
    } else {
      var i: nat := k - x0;
      assert ChainAt(cfg.BlockSize(), x0, s.blocks, g.m.live, s.enq.chain, i);
    }
  }

  lemma ConstructedData(cfg: Config, blocks: Pool, work: seq<Work>, head: nat, live: Live, stream: seq<Item>, k: nat, p: nat, c: Cell)
    requires cfg.BlockSize() > 0 && Data(cfg.BlockSize(), blocks, work, head, live, stream) && Injective(live) && k in live
    requires InBlock(cfg.BlockSize(), k, p) && p >= |stream|
    ensures Data(cfg.BlockSize(), PutCell(cfg, blocks, live[k], p, c), work, head, live, stream)
  {
    hide Quot, Rem, Unmoved;
    var B, blocks' := cfg.BlockSize(), PutCell(cfg, blocks, live[k], p, c);
    forall i: nat | head <= i < |stream| ensures Stored(B, blocks', live, stream, i) {
      assert Stored(B, blocks, live, stream, i);
      OthersKept(cfg, blocks, live, k, p, c, i, stream[i]);
    }
    forall t, i: nat | 0 <= t < |work| && Unmoved(work[t], i) ensures Stored(B, blocks', live, stream, i) {
      assert Stored(B, blocks, live, stream, i);
      OthersKept(cfg, blocks, live, k, p, c, i, stream[i]);
    }
  }

  lemma ConstructedOneMore(cfg: Config, tail: nat, x0: nat, blocks: Pool, tailBlock: BlockId, items: seq<Item>, chain: seq<BlockId>, i: nat, live: Live, k: nat)
    requires var B, p := cfg.BlockSize(), tail + i;
             && Constructed(B, tail, x0, blocks, tailBlock, items, chain, i) && TargetsLive(B, tail, x0, tailBlock, chain, |items|, live)
             && i < |items| && Injective(live) && k in live && InBlock(B, k, p)
             && live[k] in blocks && |blocks[live[k]].cells| == B
    ensures Constructed(cfg.BlockSize(), tail, x0, PutCell(cfg, blocks, live[k], tail + i, Full(items[i])), tailBlock, items, chain, i + 1)
  {
    hide Quot, Rem, Target;
    var B, p := cfg.BlockSize(), tail + i;
    var blocks' := PutCell(cfg, blocks, live[k], p, Full(items[i]));
    forall j | 0 <= j < |items| && j < i + 1 ensures HasItem(B, blocks', Target(B, x0, tailBlock, chain, tail + j), tail + j, items[j]) {
      var q := tail + j;
      assert Target(B, x0, tailBlock, chain, q) == live[Quot(q, B)];
      if j < i {
        OthersKept(cfg, blocks, live, k, p, Full(items[i]), q, items[j]);
      } else {
        OwnBlock(B, p);
        BlockIs(B, k, p);
      }
    }
  }

  /** An item is constructed in the cell of its index: everything published stays stored,
      everything constructed before stays constructed. `k` is the block the item comes to. */
  lemma ConstructInv(cfg: Config, s: State, g: Ghost, k: nat)
    requires Inv(cfg, s, g) && s.enq.Construct? && s.enq.i < |s.enq.items|
    requires k in g.m.live && InBlock(cfg.BlockSize(), k, s.tk.tail + s.enq.i)
    ensures Inv(cfg, SetEnq(s, Construct(s.enq.items, s.enq.chain, s.enq.i + 1)).(
                       blocks := PutCell(cfg, s.blocks, g.m.live[k], s.tk.tail + s.enq.i, Full(s.enq.items[s.enq.i]))), g)
  {
    hide Quot, Rem, BlockIndex.Inv, Tickets.Inv, Claims, Places, Counts, Retired, DoneSet, Data, Owners, Constructed, ChainLive, InBlock;
    var B, items, chain, i, x0, p := cfg.BlockSize(), s.enq.items, s.enq.chain, s.enq.i, NextBlock(cfg, s.tk.tail), s.tk.tail + s.enq.i;
    var e, b := Construct(items, chain, i + 1), g.m.live[k];
    BlockSizePositive(cfg);
    LivesInjective(cfg, s, g);
    LiveBlockHasCells(cfg, s, g, k);
    TargetsAreLive(cfg, s, g, items, chain);
    MovedCounts(cfg, s.blocks, g.m.live, g.m.committed, g.done, b, p, Full(items[i]));
    ConstructedData(cfg, s.blocks, s.work, s.tk.head, g.m.live, g.stream, k, p, Full(items[i]));
    OwnersSame(s.blocks, PutCell(cfg, s.blocks, b, p, Full(items[i])), s.work, s.enq, e, g.m.live);
    ConstructedOneMore(cfg, s.tk.tail, x0, s.blocks, s.tailBlock, items, chain, i, g.m.live, k);
    ChainAnyCell(cfg, x0, s.blocks, g.m.live, g.m.committed, chain, 0, b, p, Full(items[i]));
  }

  lemma StepConstruct(cfg: Config, s: State, g: Ghost, choice: Choice)
    requires Inv(cfg, s, g) && Shape(s) && s.enq.Construct? && ProduceEnabled(cfg, s, choice)
    ensures Inv(cfg, Advance(cfg, s, choice), g)
  {
    hide Quot, Rem, BlockIndex.Inv, Tickets.Inv, Claims, Places, Counts, Retired, DoneSet, Data, Owners, ChainLive, Constructed;
    var items, chain, i := s.enq.items, s.enq.chain, s.enq.i;
    if i >= |items| {
      EnqMoves(cfg, s, g, Publish(items, chain));
    } else {
      TargetsAreLive(cfg, s, g, items, chain);
      BlockSizePositive(cfg);
      var p := s.tk.tail + i;
      OwnBlock(cfg.BlockSize(), p);
      assert Target(cfg.BlockSize(), NextBlock(cfg, s.tk.tail), s.tailBlock, chain, p) == g.m.live[Quot(p, cfg.BlockSize())];
      ConstructInv(cfg, s, g, Quot(p, cfg.BlockSize()));
    }
  }

  // ------------------------------------------------------------------ publishing

  /** The last block number there will be elements in. */
  lemma PublishedBlocks(cfg: Config, s: State, g: Ghost)
    requires Inv(cfg, s, g) && s.enq.Publish?
    ensures g.m.last + 1 == NextBlock(cfg, s.tk.tail + |s.enq.items|)
    ensures BlockIndex.Settled(g.m) && s.ix.writer.Rest? && g.m.committed <= g.m.last
    ensures Room(cfg, s.tk.head, NextBlock(cfg, s.tk.tail + |s.enq.items|))
  {
    hide Quot, Rem, BlockIndex.Inv, Tickets.Inv, Claims, Places, Counts, Retired, DoneSet, Data, Owners;
    CheckIsSettled(cfg.BlockSize(), NextBlock(cfg, s.tk.tail), s.blocks, g.m, s.enq.chain);
  }

  lemma PublishedCounts(cfg: Config, s: State, g: Ghost)
    requires Inv(cfg, s, g) && s.enq.Publish?
    ensures Counts(cfg.BlockSize(), s.blocks, g.m.live, g.m.last, g.done)
    ensures Retired(cfg.BlockSize(), s.work, s.ix.readers, g.m.live, g.m.last, g.done)
  {
    hide Quot, Rem, BlockIndex.Inv, Tickets.Inv, Claims, Places, Data, Owners, ClearedBySome, ClearedOnce;
    var B, x0 := cfg.BlockSize(), NextBlock(cfg, s.tk.tail);
    HeadBehind(cfg, s, g);
    BlockSizePositive(cfg);
    forall k: nat | g.m.committed < k <= g.m.last
      ensures k in g.m.live && BlockInv(B, s.blocks, g.m.live, g.done, k) && !AllDone(B, g.done, k)
    {
      var i: nat := k - x0;
      assert ChainAt(B, x0, s.blocks, g.m.live, s.enq.chain, i);
      if x0 < k { BlocksApart(B, x0, k); }
      assert DoneIn(B, g.done, k) == {};
      assert InBlock(B, k, k * B);
    }
    forall k | k in g.m.live && k <= g.m.last ensures BlockInv(B, s.blocks, g.m.live, g.done, k) {
    }
  }

  lemma PublishedData(cfg: Config, s: State, g: Ghost)
    requires Inv(cfg, s, g) && s.enq.Publish?
    ensures Data(cfg.BlockSize(), s.blocks, s.work, s.tk.head, g.m.live, g.stream + s.enq.items)
  {
    hide Quot, Rem, BlockIndex.Inv, Tickets.Inv, Claims, Places, Counts, Retired, DoneSet, Owners, ChainLive, Target;
    var B, items, stream := cfg.BlockSize(), s.enq.items, g.stream + s.enq.items;
    TargetsAreLive(cfg, s, g, items, s.enq.chain);
    forall i: nat | s.tk.head <= i < |stream| ensures Stored(B, s.blocks, g.m.live, stream, i) {
      if i < s.tk.tail {
        assert Stored(B, s.blocks, g.m.live, g.stream, i);
      } else {
        var j := i - s.tk.tail;
        assert HasItem(B, s.blocks, Target(B, NextBlock(cfg, s.tk.tail), s.tailBlock, s.enq.chain, s.tk.tail + j), s.tk.tail + j, items[j]);
      }
    }
    forall t, i: nat | 0 <= t < |s.work| && Unmoved(s.work[t], i) ensures Stored(B, s.blocks, g.m.live, stream, i) {
      assert Stored(B, s.blocks, g.m.live, g.stream, i);
    }
  }

  lemma PublishedEnq(cfg: Config, s: State, g: Ghost)
    requires Inv(cfg, s, g) && s.enq.Publish?
    ensures var tail, chain := s.tk.tail + |s.enq.items|, s.enq.chain;
            EnqInv(cfg, tail, s.tk.head, if chain == [] then s.tailBlock else chain[|chain| - 1], Ready, s.ix.writer, s.blocks, g.m.(committed := g.m.last))
  {
    hide Quot, Rem, BlockIndex.Inv, Tickets.Inv, Claims, Places, Counts, Retired, DoneSet, Data, Owners, CleanBlock, Constructed;
    var B, x0, chain := cfg.BlockSize(), NextBlock(cfg, s.tk.tail), s.enq.chain;
    BlockSizePositive(cfg);
    NextBlockBounds(cfg, s.tk.tail);
    NextBlockBounds(cfg, s.tk.tail + |s.enq.items|);
    if chain != [] {
      var i: nat := |chain| - 1;
      assert ChainAt(B, x0, s.blocks, g.m.live, chain, i);
    }
  }

  lemma ClaimsExtend(work: seq<Work>, pcs: seq<Tickets.Pc>, stream: seq<Item>, more: seq<Item>)
    requires Claims(work, pcs, stream)
    ensures Claims(work, pcs, stream + more)
  {
    forall t | 0 <= t < |work| ensures ClaimInv(work[t], pcs[t], stream + more) {
      assert ClaimInv(work[t], pcs[t], stream);
    }
  }

  /** One store to the tail index publishes the items, in order, after all published before. */
  lemma StepPublish(cfg: Config, s: State, g: Ghost, choice: Choice)
    requires Inv(cfg, s, g) && Shape(s) && Recent(cfg, s) && s.enq.Publish? && ProduceEnabled(cfg, s, choice)
    ensures Inv(cfg, Advance(cfg, s, choice), g.(m := g.m.(committed := g.m.last), stream := g.stream + s.enq.items))
  {
    hide Quot, Rem, BlockIndex.Inv, Tickets.Inv, Claims, Places, Counts, Retired, DoneSet, Data, Owners, EnqInv, Room, BlockIndex.Settled;
    PublishedBlocks(cfg, s, g);
    BlockIndex.StepCommit(cfg, s.ix, g.m);
    Tickets.StepInv(cfg.Half(), s.tk, g.log, Tickets.Publish(|s.enq.items|));
    ClaimsExtend(s.work, s.tk.pcs, g.stream, s.enq.items);
    PublishedCounts(cfg, s, g);
    PublishedData(cfg, s, g);
    PublishedEnq(cfg, s, g);
    OwnersOther(s.blocks, s.work, s.enq, Ready, g.m.live);
  }
}
