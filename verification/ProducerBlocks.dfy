/** A consumer empties the blocks of its claim: elements move out, are counted, and the
    block whose count is complete leaves the index and is given back. */
module ProducerBlocks {
  import opened Basics
  import opened Circular
  import opened ProducerQueue
  import opened ProducerInvariant
  import opened ProducerConsumers
  import Tickets
  import BlockIndex

  // ------------------------------------------------------------------ claims

  lemma ClaimBelowHead(cfg: Config, s: State, g: Ghost, t: nat)
    requires Inv(cfg, s, g) && t < |s.work| && Active(s.work[t])
    ensures s.work[t].first + s.work[t].count <= s.tk.head
  {
    assert ClaimInv(s.work[t], s.tk.pcs[t], g.stream);
    assert Tickets.PcInv(s.tk, g.log, s.tk.pcs[t]);
  }

  /** Two consumers' claims have no element in common. */
  lemma ClaimsApart(cfg: Config, s: State, g: Ghost, t: nat, u: nat)
    requires Inv(cfg, s, g) && t < |s.work| && u < |s.work| && t != u && Active(s.work[t]) && Active(s.work[u])
    ensures var w, v := s.work[t], s.work[u]; w.first + w.count <= v.first || v.first + v.count <= w.first
  {
    assert ClaimInv(s.work[t], s.tk.pcs[t], g.stream);
    assert ClaimInv(s.work[u], s.tk.pcs[u], g.stream);
    if t < u {
      assert Tickets.Apart(s.tk.pcs[t], s.tk.pcs[u]);
    } else {
      assert Tickets.Apart(s.tk.pcs[u], s.tk.pcs[t]);
    }
  }

  lemma HoldsUnmoved(cfg: Config, s: State, g: Ghost, t: nat, i: nat)
    requires Inv(cfg, s, g) && t < |s.work| && Unmoved(s.work[t], i)
    ensures Holds(s.work[t], i) && i !in g.done
  {
    assert PlaceInv(cfg.BlockSize(), s.work[t], s.ix.readers[t], g.m.live, g.done);
    assert Holds(s.work[t], i);
  }

  // ------------------------------------------------------------------ what producers rely on

  ghost predicate Injective(live: Live) {
    forall k <- live, l <- live :: k != l ==> live[k] != live[l]
  }

  /** The producer constructs each of the next `n` elements in the live block that has its number. */
  ghost predicate TargetsLive(B: nat, tail: nat, x0: nat, tailBlock: BlockId, chain: seq<BlockId>, n: nat, live: Live) {
    B > 0 && forall p: nat :: tail <= p < tail + n ==> Quot(p, B) in live && Target(B, x0, tailBlock, chain, p) == live[Quot(p, B)]
  }

  lemma TargetIsLive(cfg: Config, tail: nat, n: nat, tailBlock: BlockId, blocks: Pool, chain: seq<BlockId>, live: Live, committed: int, p: nat)
    requires cfg.Valid() && tail <= p < tail + n && committed + 1 == NextBlock(cfg, tail)
    requires NextBlock(cfg, tail) + |chain| == NextBlock(cfg, tail + n)
    requires ChainLive(cfg.BlockSize(), NextBlock(cfg, tail), blocks, live, committed, chain, 0)
    requires TailBlockInv(cfg.BlockSize(), tail, tailBlock, live, committed)
    requires Rem(tail, cfg.BlockSize()) != 0 ==> committed in live
    ensures var B := cfg.BlockSize();
            B > 0 && Quot(p, B) in live && Target(B, NextBlock(cfg, tail), tailBlock, chain, p) == live[Quot(p, B)]
  {
    var B, x0, x := cfg.BlockSize(), NextBlock(cfg, tail), Quot(p, cfg.BlockSize());
    OwnBlock(B, p);
    BeforeNextBlock(cfg, tail, x, p);
    BeforeNextBlock(cfg, tail + n, x, p);
    if x < x0 {
      NextBlockBounds(cfg, tail);
    } else {
      var i: nat := x - x0;
      assert ChainAt(cfg.BlockSize(), x0, blocks, live, chain, i);
    }
  }

  /** The block the tail is in, if it is in the middle of one, is in use. */
  lemma TailBlockIsLive(cfg: Config, s: State, g: Ghost)
    requires Base(cfg, s, g) && DoneSet(s.work, s.tk.head, g.done)
    requires Retired(cfg.BlockSize(), s.work, s.ix.readers, g.m.live, g.m.committed, g.done)
    ensures cfg.BlockSize() > 0 && (Rem(s.tk.tail, cfg.BlockSize()) != 0 ==> g.m.committed in g.m.live)
  {
    hide Quot, Rem, BlockIndex.Inv, Tickets.Inv, ClearedBySome, ClearedOnce, Room, NextBlock, HeldBySome, Holds;
    var B, x0 := cfg.BlockSize(), NextBlock(cfg, s.tk.tail);
    BlockSizePositive(cfg);
    NextBlockBounds(cfg, s.tk.tail);
    Tickets.HeadNeverPassesTail(s.tk, g.log);
    assert s.tk.tail !in g.done;
    if Rem(s.tk.tail, B) != 0 {
      var k: nat := g.m.committed;
      assert x0 * B == k * B + B;
      assert InBlock(B, k, s.tk.tail);
      assert !AllDone(B, g.done, k);
    }
  }

  lemma TargetsAreLive(cfg: Config, s: State, g: Ghost, items: seq<Item>, chain: seq<BlockId>)
    requires Inv(cfg, s, g) && ((s.enq.Construct? && s.enq.chain == chain && s.enq.items == items) || s.enq == Publish(items, chain))
    ensures TargetsLive(cfg.BlockSize(), s.tk.tail, NextBlock(cfg, s.tk.tail), s.tailBlock, chain, |items|, g.m.live)
  {
    TailBlockIsLive(cfg, s, g);
    assert ChainLive(cfg.BlockSize(), NextBlock(cfg, s.tk.tail), s.blocks, g.m.live, g.m.committed, chain, 0);
    forall p: nat | s.tk.tail <= p < s.tk.tail + |items|
      ensures Quot(p, cfg.BlockSize()) in g.m.live
      ensures Target(cfg.BlockSize(), NextBlock(cfg, s.tk.tail), s.tailBlock, chain, p) == g.m.live[Quot(p, cfg.BlockSize())]
    {
      TargetIsLive(cfg, s.tk.tail, |items|, s.tailBlock, s.blocks, chain, g.m.live, g.m.committed, p);
    }
  }

  /** The elements from the tail on that are constructed in live blocks stay so. */
  ghost predicate TailKept(B: nat, tail: nat, live: Live, blocks: Pool, blocks': Pool) {
    B > 0 && forall p: nat, v :: tail <= p && Quot(p, B) in live && HasItem(B, blocks, live[Quot(p, B)], p, v) ==> HasItem(B, blocks', live[Quot(p, B)], p, v)
  }

  lemma ConstructedKept(B: nat, tail: nat, x0: nat, tailBlock: BlockId, items: seq<Item>, chain: seq<BlockId>, i: nat, live: Live, blocks: Pool, blocks': Pool)
    requires Constructed(B, tail, x0, blocks, tailBlock, items, chain, i)
    requires TargetsLive(B, tail, x0, tailBlock, chain, |items|, live) && TailKept(B, tail, live, blocks, blocks')
    ensures Constructed(B, tail, x0, blocks', tailBlock, items, chain, i)
  {
    forall j | 0 <= j < |items| && j < i ensures HasItem(B, blocks', Target(B, x0, tailBlock, chain, tail + j), tail + j, items[j]) {
      var p := tail + j;
      assert HasItem(B, blocks, Target(B, x0, tailBlock, chain, p), p, items[j]);
    }
  }

  ghost predicate PrivateKept(e: Enqueuer, blocks: Pool, blocks': Pool) {
    forall b :: Private(e, b) && b in blocks ==> b in blocks' && blocks'[b] == blocks[b]
  }

  /** The producer thread's work survives a change of blocks that leaves its private
      blocks, and the elements from the tail on, alone. */
  lemma ProgressKept(cfg: Config, s: State, g: Ghost, blocks: Pool)
    requires Inv(cfg, s, g) && PrivateKept(s.enq, s.blocks, blocks)
    requires TailKept(cfg.BlockSize(), s.tk.tail, g.m.live, s.blocks, blocks)
    ensures ProgressInv(cfg, s.tk.tail, s.tk.head, s.tailBlock, s.enq, blocks)
  {
    hide BlockIndex.Inv, Tickets.Inv;
    match s.enq
    case Construct(items, chain, i) =>
      TargetsAreLive(cfg, s, g, items, chain);
      ConstructedKept(cfg.BlockSize(), s.tk.tail, NextBlock(cfg, s.tk.tail), s.tailBlock, items, chain, i, g.m.live, s.blocks, blocks);
    case Publish(items, chain) =>
      TargetsAreLive(cfg, s, g, items, chain);
      ConstructedKept(cfg.BlockSize(), s.tk.tail, NextBlock(cfg, s.tk.tail), s.tailBlock, items, chain, |items|, g.m.live, s.blocks, blocks);
    case Clean(_, _, _, b) => assert Private(s.enq, b);
    case Store(_, _, _, b) => assert Private(s.enq, b);
    case _ =>
  }

  // ------------------------------------------------------------------ moving an element out

  /** What a consumer that is moving elements finds. */
  lemma MovingFacts(cfg: Config, s: State, g: Ghost, t: nat)
    requires Inv(cfg, s, g) && t < |s.work| && s.work[t].Moving?
    ensures var B, w, k := cfg.BlockSize(), s.work[t], s.ix.readers[t].lo;
            && B > 0 && k in g.m.live && k <= g.m.committed && w.b == g.m.live[k]
            && BlockInv(B, s.blocks, g.m.live, g.done, k)
            && w.start < w.end && InBlock(B, k, w.start) && w.end <= k * B + B && Rem(w.pos, B) < B
            && (w.pos < w.end ==> InBlock(B, k, w.pos) && w.pos < |g.stream| && HasItem(B, s.blocks, w.b, w.pos, g.stream[w.pos]))
  {
    var B, w, r := cfg.BlockSize(), s.work[t], s.ix.readers[t];
    BlockSizePositive(cfg);
    assert PlaceInv(B, w, r, g.m.live, g.done);
    ReaderPins(|s.ix.headers|, g.m, s.ix.readers, t);
    if w.pos < w.end {
      BlockIs(B, r.lo, w.pos);
      UnmovedStored(B, s.blocks, s.work, s.tk.head, g.m.live, g.stream, t, w.pos);
    }
  }

  lemma ReaderPins(n: nat, m: BlockIndex.Map, readers: seq<BlockIndex.Reader>, t: nat)
    requires BlockIndex.Readers(n, m, readers) && t < |readers| && !readers[t].Off?
    ensures BlockIndex.Pinned(m, readers[t].lo, readers[t].hi)
  {
    assert BlockIndex.ReaderInv(n, m, readers[t]);
  }

  lemma UnmovedStored(B: nat, blocks: Pool, work: seq<Work>, head: nat, live: Live, stream: seq<Item>, t: nat, i: nat)
    requires Data(B, blocks, work, head, live, stream) && t < |work| && Unmoved(work[t], i)
    ensures Stored(B, blocks, live, stream, i)
  {
  }

  function Moved(w: Work, c: Cell): Work
    requires w.Moving?
  {
    Moving(w.first, w.count, w.pos + 1, w.got + [c], w.b, w.start, w.end)
  }

  lemma MoveResult(cfg: Config, s: State, t: nat)
    requires cfg.Valid() && Shape(s) && Enabled(cfg, s, Consume(t)) && s.work[t].Moving? && s.work[t].pos < s.work[t].end
    requires cfg.BlockSize() > 0 && s.work[t].b in s.blocks && Rem(s.work[t].pos, cfg.BlockSize()) < |s.blocks[s.work[t].b].cells|
    ensures var w := s.work[t];
            Apply(cfg, s, Consume(t)) == SetWork(s.(blocks := PutCell(cfg, s.blocks, w.b, w.pos, Raw)), t, Moved(w, s.blocks[w.b].cells[Rem(w.pos, cfg.BlockSize())]))
  {
  }

  /** Changing the cell of one element leaves all other elements where they are. */
  lemma OthersKept(cfg: Config, blocks: Pool, live: Live, k: nat, pos: nat, c: Cell, p: nat, v: Item)
    requires cfg.BlockSize() > 0 && Injective(live) && k in live && InBlock(cfg.BlockSize(), k, pos)
    requires p != pos && Quot(p, cfg.BlockSize()) in live
    requires HasItem(cfg.BlockSize(), blocks, live[Quot(p, cfg.BlockSize())], p, v)
    ensures HasItem(cfg.BlockSize(), PutCell(cfg, blocks, live[k], pos, c), live[Quot(p, cfg.BlockSize())], p, v)
  {
    OwnBlock(cfg.BlockSize(), p);
    BlockIs(cfg.BlockSize(), k, pos);
    if Quot(p, cfg.BlockSize()) == k {
      BlockIs(cfg.BlockSize(), k, p);
    }
  }

  lemma MovedData(cfg: Config, s: State, g: Ghost, t: nat, k: nat, work: seq<Work>)
    requires Inv(cfg, s, g) && t < |s.work| && s.work[t].Moving? && s.work[t].pos < s.work[t].end && k in g.m.live
    requires InBlock(cfg.BlockSize(), k, s.work[t].pos)
    requires |work| == |s.work| && (forall u :: 0 <= u < |work| && u != t ==> work[u] == s.work[u])
    requires forall i: nat :: Unmoved(work[t], i) ==> Unmoved(s.work[t], i) && i != s.work[t].pos
    ensures Data(cfg.BlockSize(), PutCell(cfg, s.blocks, g.m.live[k], s.work[t].pos, Raw), work, s.tk.head, g.m.live, g.stream)
  {
    var B, pos := cfg.BlockSize(), s.work[t].pos;
    var blocks := PutCell(cfg, s.blocks, g.m.live[k], pos, Raw);
    BlockSizePositive(cfg);
    ClaimBelowHead(cfg, s, g, t);
    assert PlaceInv(B, s.work[t], s.ix.readers[t], g.m.live, g.done);
    forall i: nat | s.tk.head <= i < |g.stream| ensures Stored(B, blocks, g.m.live, g.stream, i) {
      assert Stored(B, s.blocks, g.m.live, g.stream, i);
      OthersKept(cfg, s.blocks, g.m.live, k, pos, Raw, i, g.stream[i]);
    }
    forall u, i: nat | 0 <= u < |work| && Unmoved(work[u], i) ensures Stored(B, blocks, g.m.live, g.stream, i) {
      assert Unmoved(s.work[u], i);
      assert Stored(B, s.blocks, g.m.live, g.stream, i);
      if u != t {
        assert ClaimInv(s.work[u], s.tk.pcs[u], g.stream);
        assert ClaimInv(s.work[t], s.tk.pcs[t], g.stream);
        ClaimsApart(cfg, s, g, t, u);
      }
      OthersKept(cfg, s.blocks, g.m.live, k, pos, Raw, i, g.stream[i]);
    }
  }

  lemma MovedTail(cfg: Config, blocks: Pool, live: Live, tail: nat, k: nat, pos: nat)
    requires cfg.BlockSize() > 0 && Injective(live) && k in live && InBlock(cfg.BlockSize(), k, pos) && pos < tail
    ensures TailKept(cfg.BlockSize(), tail, live, blocks, PutCell(cfg, blocks, live[k], pos, Raw))
  {
    hide HasItem, Quot, Rem;
    var B := cfg.BlockSize();
    forall p: nat, v | tail <= p && Quot(p, B) in live && HasItem(B, blocks, live[Quot(p, B)], p, v)
      ensures HasItem(B, PutCell(cfg, blocks, live[k], pos, Raw), live[Quot(p, B)], p, v)
    {
      OthersKept(cfg, blocks, live, k, pos, Raw, p, v);
    }
  }

  /** Blocks inserted and not yet published stay clean when a published one changes. */
  lemma ChainKept(B: nat, x0: nat, blocks: Pool, blocks': Pool, live: Live, committed: int, chain: seq<BlockId>, from: nat)
    requires ChainLive(B, x0, blocks, live, committed, chain, from)
    requires forall b :: CleanBlock(B, blocks, b) && b in live.Values && (forall k <- live :: live[k] == b ==> k > committed) ==> CleanBlock(B, blocks', b)
    requires Injective(live) && committed < x0
    ensures ChainLive(B, x0, blocks', live, committed, chain, from)
  {
    forall i: nat | from <= i < |chain| ensures ChainAt(B, x0, blocks', live, chain, i) {
      assert ChainAt(B, x0, blocks, live, chain, i);
      assert live[x0 + i] in live.Values;
    }
  }

  /** Changing a cell does not unsettle the blocks inserted and not yet published. */
  lemma ChainAnyCell(cfg: Config, x0: nat, blocks: Pool, live: Live, committed: int, chain: seq<BlockId>, from: nat, b: BlockId, p: nat, c: Cell)
    requires cfg.BlockSize() > 0 && ChainLive(cfg.BlockSize(), x0, blocks, live, committed, chain, from)
    ensures ChainLive(cfg.BlockSize(), x0, PutCell(cfg, blocks, b, p, c), live, committed, chain, from)
  {
    var blocks' := PutCell(cfg, blocks, b, p, c);
    forall i: nat | from <= i < |chain| ensures ChainAt(cfg.BlockSize(), x0, blocks', live, chain, i) {
      assert ChainAt(cfg.BlockSize(), x0, blocks, live, chain, i);
    }
  }

  lemma OtherCell(cfg: Config, e: Enqueuer, blocks: Pool, b: BlockId, p: nat, c: Cell)
    requires cfg.BlockSize() > 0 && !Private(e, b)
    ensures PrivateKept(e, blocks, PutCell(cfg, blocks, b, p, c))
  {
    hide Private;
  }

  lemma MovedEnq(cfg: Config, s: State, g: Ghost, t: nat, k: nat)
    requires Inv(cfg, s, g) && t < |s.work| && s.work[t].Moving? && s.work[t].pos < s.work[t].end
    requires k in g.m.live && k <= g.m.committed && InBlock(cfg.BlockSize(), k, s.work[t].pos)
    ensures EnqInv(cfg, s.tk.tail, s.tk.head, s.tailBlock, s.enq, s.ix.writer, PutCell(cfg, s.blocks, g.m.live[k], s.work[t].pos, Raw), g.m)
  {
    hide Quot, Rem, BlockIndex.Inv, Tickets.Inv, Claims, Places, Counts, Retired, DoneSet, Data, Owners, TailBlockInv, IndexPlace, ChainLive, ProgressInv, PutCell, PrivateKept, TailKept;
    var pos := s.work[t].pos;
    BlockSizePositive(cfg);
    ClaimBelowHead(cfg, s, g, t);
    PlaceAt(cfg, s, g, t);
    Tickets.HeadNeverPassesTail(s.tk, g.log);
    LivesInjective(cfg, s, g);
    PrivateApart(s, g, k);
    MovedTail(cfg, s.blocks, g.m.live, s.tk.tail, k, pos);
    OtherCell(cfg, s.enq, s.blocks, g.m.live[k], pos, Raw);
    ProgressKept(cfg, s, g, PutCell(cfg, s.blocks, g.m.live[k], pos, Raw));
    ChainAnyCell(cfg, NextBlock(cfg, s.tk.tail), s.blocks, g.m.live, g.m.committed, ChainOf(s.enq).0, ChainOf(s.enq).1, g.m.live[k], pos, Raw);
  }

  lemma LivesInjective(cfg: Config, s: State, g: Ghost)
    requires BlockIndex.Inv(cfg, s.ix, g.m)
    ensures Injective(g.m.live)
  {
  }

  lemma PrivateApart(s: State, g: Ghost, k: nat)
    requires Owners(s.blocks, s.work, s.enq, g.m.live) && k in g.m.live
    ensures !Private(s.enq, g.m.live[k])
  {
    assert g.m.live[k] in g.m.live.Values;
  }

  lemma MovedPlace(B: nat, w: Work, c: Cell, r: BlockIndex.Reader, pc: Tickets.Pc, live: Live, stream: seq<Item>, done: set<nat>)
    requires w.Moving? && w.pos < w.end && ClaimInv(w, pc, stream) && PlaceInv(B, w, r, live, done)
    requires w.pos < |stream| && c == Full(stream[w.pos])
    ensures ClaimInv(Moved(w, c), pc, stream) && PlaceInv(B, Moved(w, c), r, live, done)
    ensures forall i :: Holds(Moved(w, c), i) <==> Holds(w, i)
    ensures forall i :: Unmoved(Moved(w, c), i) ==> Unmoved(w, i) && i != w.pos
  {
  }

  lemma MovedInv(cfg: Config, s: State, g: Ghost, t: nat, c: Cell)
    requires Inv(cfg, s, g) && t < |s.work| && s.work[t].Moving? && s.work[t].pos < s.work[t].end
    requires s.work[t].pos < |g.stream| && c == Full(g.stream[s.work[t].pos])
    ensures Inv(cfg, SetWork(s.(blocks := PutCell(cfg, s.blocks, s.work[t].b, s.work[t].pos, Raw)), t, Moved(s.work[t], c)), g)
  {
    hide Quot, Rem, BlockIndex.Inv, Tickets.Inv, Claims, Places, Counts, Retired, DoneSet, Data, Owners, EnqInv, ClaimInv, PlaceInv, BlockInv, HasItem, Holds, Unmoved;
    PlaceAt(cfg, s, g, t);
    MovingReader(cfg.BlockSize(), s.work[t], s.ix.readers[t], g.m.live, g.done);
    var B, w, k := cfg.BlockSize(), s.work[t], s.ix.readers[t].lo;
    var blocks, work := PutCell(cfg, s.blocks, w.b, w.pos, Raw), s.work[t := Moved(w, c)];
    MovingFacts(cfg, s, g, t);
    MovedPlace(B, w, c, s.ix.readers[t], s.tk.pcs[t], g.m.live, g.stream, g.done);
    ClaimsUpdate(s.work, s.tk.pcs, g.stream, work, t);
    PlacesUpdate(B, s.work, s.ix.readers, work, s.ix.readers, g.m.live, g.done, t);
    RetiredUnmoved(B, s.work, s.ix.readers, work, s.ix.readers, g.m.live, g.m.committed, g.done, t);
    HoldingUnmoved(s.work, work, t, s.tk.head, g.done);
    OwnersUnmoved(s.blocks, blocks, s.work, work, s.enq, g.m.live, t);
    MovedData(cfg, s, g, t, k, work);
    MovedEnq(cfg, s, g, t, k);
    MovedCounts(cfg, s.blocks, g.m.live, g.m.committed, g.done, w.b, w.pos, Raw);
  }

  lemma MovingReader(B: nat, w: Work, r: BlockIndex.Reader, live: Live, done: set<nat>)
    requires w.Moving? && PlaceInv(B, w, r, live, done)
    ensures r.Found? && w.first <= w.start < w.end <= w.first + w.count && w.start <= w.pos <= w.end
  {
  }

  lemma RetiredUnmoved(B: nat, work: seq<Work>, readers: seq<BlockIndex.Reader>, work': seq<Work>, readers': seq<BlockIndex.Reader>,
                       live: Live, committed: int, done: set<nat>, t: nat)
    requires Retired(B, work, readers, live, committed, done)
    requires |work| == |readers| == |work'| == |readers'| && t < |work| && !work[t].Clearing? && !work'[t].Clearing?
    requires forall u :: 0 <= u < |work| && u != t ==> work'[u] == work[u] && readers'[u] == readers[u]
    ensures Retired(B, work', readers', live, committed, done)
  {
    ClearingUnmoved(work, readers, work', readers', t);
  }

  lemma OwnersUnmoved(blocks: Pool, blocks': Pool, work: seq<Work>, work': seq<Work>, e: Enqueuer, live: Live, t: nat)
    requires Owners(blocks, work, e, live) && blocks'.Keys == blocks.Keys
    requires |work| == |work'| && t < |work| && !work[t].Giving? && !work'[t].Giving?
    requires forall u :: 0 <= u < |work| && u != t ==> work'[u] == work[u]
    ensures Owners(blocks', work', e, live)
  {
    GivingUnmoved(work, work', t);
  }

  lemma MovedCounts(cfg: Config, blocks: Pool, live: Live, committed: int, done: set<nat>, b: BlockId, pos: nat, c: Cell)
    requires Counts(cfg.BlockSize(), blocks, live, committed, done) && cfg.BlockSize() > 0
    ensures Counts(cfg.BlockSize(), PutCell(cfg, blocks, b, pos, c), live, committed, done)
  {
    forall l | l in live && l <= committed ensures BlockInv(cfg.BlockSize(), PutCell(cfg, blocks, b, pos, c), live, done, l) {
      assert BlockInv(cfg.BlockSize(), blocks, live, done, l);
    }
  }

  lemma ClaimsUpdate(work: seq<Work>, pcs: seq<Tickets.Pc>, stream: seq<Item>, work': seq<Work>, t: nat)
    requires Claims(work, pcs, stream) && t < |work| == |work'|
    requires forall u :: 0 <= u < |work| && u != t ==> work'[u] == work[u]
    requires ClaimInv(work'[t], pcs[t], stream)
    ensures Claims(work', pcs, stream)
  {
    forall u | 0 <= u < |work| ensures ClaimInv(work'[u], pcs[u], stream) {
      assert u != t ==> ClaimInv(work[u], pcs[u], stream);
    }
  }

  /** Moving an element out hands over the very element published under its index. */
  lemma StepMove(cfg: Config, s: State, g: Ghost, t: nat)
    requires Inv(cfg, s, g) && Shape(s) && Enabled(cfg, s, Consume(t)) && s.work[t].Moving? && s.work[t].pos < s.work[t].end
    ensures Inv(cfg, Apply(cfg, s, Consume(t)), g)
  {
    MovingFacts(cfg, s, g, t);
    MoveResult(cfg, s, t);
    MovedInv(cfg, s, g, t, Full(g.stream[s.work[t].pos]));
  }

  // ------------------------------------------------------------------ counting a block's elements

  /** Newly done elements of block `k` add to its count and to no other block's. */
  lemma DoneCount(B: nat, done: set<nat>, k: nat, start: nat, end: nat)
    requires B > 0 && InBlock(B, k, start) && start < end <= k * B + B
    requires forall i :: start <= i < end ==> i !in done
    ensures |DoneIn(B, done + Interval(start, end), k)| == |DoneIn(B, done, k)| + (end - start)
  {
    var more := Interval(start, end);
    assert DoneIn(B, done + more, k) == DoneIn(B, done, k) + more;
    assert DoneIn(B, done, k) * more == {};
  }

  lemma DoneElsewhere(B: nat, done: set<nat>, k: nat, start: nat, end: nat, l: nat)
    requires B > 0 && InBlock(B, k, start) && start < end <= k * B + B && l != k
    ensures DoneIn(B, done + Interval(start, end), l) == DoneIn(B, done, l)
    ensures AllDone(B, done + Interval(start, end), l) ==> AllDone(B, done, l)
  {
    forall i | start <= i < end ensures !InBlock(B, l, i) {
      if InBlock(B, l, i) {
        BlocksOrdered(B, l, k, i, i);
        BlocksOrdered(B, k, l, i, i);
      }
    }
  }

  /** The count is complete exactly when every element of the block is done. */
  lemma FullCount(B: nat, done: set<nat>, k: nat)
    ensures |DoneIn(B, done, k)| <= B
    ensures |DoneIn(B, done, k)| == B <==> AllDone(B, done, k)
  {
    var part, whole := DoneIn(B, done, k), Interval(k * B, k * B + B);
    SubsetSize(part, whole);
    assert forall i: nat :: i in whole <==> InBlock(B, k, i);
  }

  function Marked(blocks: Pool, b: BlockId, n: nat): Pool {
    if b in blocks then blocks[b := blocks[b].(empties := blocks[b].empties + n)] else blocks
  }

  lemma MarkedCounts(B: nat, blocks: Pool, live: Live, committed: int, done: set<nat>, k: nat, start: nat, end: nat)
    requires Counts(B, blocks, live, committed, done) && Injective(live) && k in live && k <= committed
    requires B > 0 && InBlock(B, k, start) && start < end <= k * B + B
    requires forall i :: start <= i < end ==> i !in done
    ensures Counts(B, Marked(blocks, live[k], end - start), live, committed, done + Interval(start, end))
  {
    var blocks', done' := Marked(blocks, live[k], end - start), done + Interval(start, end);
    assert BlockInv(B, blocks, live, done, k);
    forall l | l in live && l <= committed ensures BlockInv(B, blocks', live, done', l) {
      assert BlockInv(B, blocks, live, done, l);
      if l == k {
        DoneCount(B, done, k, start, end);
      } else {
        DoneElsewhere(B, done, k, start, end, l);
      }
    }
  }

  /** When a count becomes complete, the consumer that completed it clears the entry, and only it. */
  lemma MarkedRetired(B: nat, work: seq<Work>, readers: seq<BlockIndex.Reader>, live: Live, committed: int, done: set<nat>, k: nat, start: nat, end: nat,
                      work': seq<Work>, readers': seq<BlockIndex.Reader>, t: nat)
    requires Retired(B, work, readers, live, committed, done) && Places(B, work, readers, live, done)
    requires |work'| == |work| == |readers| == |readers'| && t < |work| && !work[t].Clearing?
    requires forall u :: 0 <= u < |work| && u != t ==> work'[u] == work[u] && readers'[u] == readers[u]
    requires B > 0 && InBlock(B, k, start) && start < end <= k * B + B && start !in done
    requires AllDone(B, done + Interval(start, end), k) ==> work'[t].Clearing?
    requires work'[t].Clearing? ==> readers'[t].Found? && readers'[t].lo == k
    ensures Retired(B, work', readers', live, committed, done + Interval(start, end))
  {
    var done' := done + Interval(start, end);
    ClearingUnmoved(work, readers, work', readers', t);
    forall l | l in live && l <= committed && AllDone(B, done', l) ensures ClearedBySome(work', readers', l) {
      if l != k {
        DoneElsewhere(B, done, k, start, end, l);
      }
    }
    forall u | 0 <= u < |work| && u != t && work'[u].Clearing? && readers'[u].Found?
      ensures readers'[u].lo != k
    {
      assert PlaceInv(B, work[u], readers[u], live, done);
      assert !AllDone(B, done, k);
    }
  }

  lemma MarkedDoneSet(work: seq<Work>, head: nat, done: set<nat>, t: nat, start: nat, end: nat, work': seq<Work>)
    requires DoneSet(work, head, done) && t < |work| == |work'|
    requires forall u :: 0 <= u < |work| && u != t ==> work'[u] == work[u]
    requires Active(work[t]) && Undone(work[t]) == start && end <= work[t].first + work[t].count <= head
    requires forall u, i: nat :: 0 <= u < |work| && u != t && Holds(work[u], i) ==> !Holds(work[t], i)
    requires forall i: nat :: Holds(work'[t], i) <==> Holds(work[t], i) && i >= end
    ensures DoneSet(work', head, done + Interval(start, end))
  {
    var done' := done + Interval(start, end);
    forall u, i: nat | 0 <= u < |work'| && Holds(work'[u], i) ensures i !in done' {
      assert Holds(work[u], i);
      assert Holds(work[t], i) || !(start <= i < end);
    }
    forall i: nat | i < head && i !in done' ensures HeldBySome(work', i) {
      assert HeldBySome(work, i);
      var u :| 0 <= u < |work| && Holds(work[u], i);
      assert Holds(work'[u], i);
    }
  }

  /** Two consumers never hold the same element. */
  lemma HoldsApart(cfg: Config, s: State, g: Ghost, t: nat)
    requires Inv(cfg, s, g) && t < |s.work|
    ensures forall u, i: nat :: 0 <= u < |s.work| && u != t && Holds(s.work[u], i) ==> !Holds(s.work[t], i)
  {
    hide BlockIndex.Inv, Tickets.Inv, Quot, Rem;
    forall u, i: nat | 0 <= u < |s.work| && u != t && Holds(s.work[u], i) && Active(s.work[t]) ensures !Holds(s.work[t], i) {
      ClaimsApart(cfg, s, g, t, u);
      assert ClaimInv(s.work[t], s.tk.pcs[t], g.stream) && ClaimInv(s.work[u], s.tk.pcs[u], g.stream);
      assert PlaceInv(cfg.BlockSize(), s.work[t], s.ix.readers[t], g.m.live, g.done);
      assert PlaceInv(cfg.BlockSize(), s.work[u], s.ix.readers[u], g.m.live, g.done);
    }
  }

  /** The cells are untouched by counting. */
  lemma MarkedData(B: nat, blocks: Pool, b: BlockId, n: nat, work: seq<Work>, work': seq<Work>, head: nat, live: Live, stream: seq<Item>)
    requires Data(B, blocks, work, head, live, stream)
    requires |work| == |work'| && forall u, i: nat :: 0 <= u < |work| && Unmoved(work'[u], i) ==> Unmoved(work[u], i)
    ensures Data(B, Marked(blocks, b, n), work', head, live, stream)
  {
    hide Quot, Rem;
    forall i: nat | head <= i < |stream| ensures Stored(B, Marked(blocks, b, n), live, stream, i) {
      assert Stored(B, blocks, live, stream, i);
    }
    forall u, i: nat | 0 <= u < |work'| && Unmoved(work'[u], i) ensures Stored(B, Marked(blocks, b, n), live, stream, i) {
      assert Stored(B, blocks, live, stream, i);
    }
  }

  lemma MarkedEnq(cfg: Config, s: State, g: Ghost, k: nat, n: nat)
    requires Inv(cfg, s, g) && k in g.m.live && k <= g.m.committed
    ensures EnqInv(cfg, s.tk.tail, s.tk.head, s.tailBlock, s.enq, s.ix.writer, Marked(s.blocks, g.m.live[k], n), g.m)
  {
    hide Quot, Rem, BlockIndex.Inv, Tickets.Inv, Claims, Counts, Retired, DoneSet, Data;
    var blocks := Marked(s.blocks, g.m.live[k], n);
    BlockSizePositive(cfg);
    LivesInjective(cfg, s, g);
    PrivateApart(s, g, k);
    ProgressKept(cfg, s, g, blocks);
    ChainKept(cfg.BlockSize(), NextBlock(cfg, s.tk.tail), s.blocks, blocks, g.m.live, g.m.committed, ChainOf(s.enq).0, ChainOf(s.enq).1);
  }

  lemma MarkedPlace(v: Work, w: Work, pc: Tickets.Pc, stream: seq<Item>)
    requires v.Moving? && v.start < v.end == v.pos <= v.first + v.count && ClaimInv(v, pc, stream)
    requires w == Clearing(v.first, v.count, v.pos, v.got, v.b) || w == Next(v.first, v.count, v.pos, v.got)
    ensures ClaimInv(w, pc, stream) && Active(v) && Undone(v) == v.start
    ensures forall i: nat :: Holds(w, i) <==> Holds(v, i) && i >= v.end
    ensures forall i :: Unmoved(w, i) ==> Unmoved(v, i)
  {
  }

  /** The elements of one block that a consumer has moved out are counted: what it does
      next is `w`, which clears the entry if and only if the count is now complete. */
  lemma MarkedInv(cfg: Config, s: State, g: Ghost, t: nat, w: Work, ix: BlockIndex.State)
    requires Inv(cfg, s, g) && t < |s.work| && s.work[t].Moving? && s.work[t].pos == s.work[t].end
    requires BlockIndex.Inv(cfg, ix, g.m) && ix.writer == s.ix.writer && |ix.readers| == |s.ix.readers|
    requires forall u :: 0 <= u < |ix.readers| && u != t ==> ix.readers[u] == s.ix.readers[u]
    requires var v := s.work[t]; w == Clearing(v.first, v.count, v.pos, v.got, v.b) || w == Next(v.first, v.count, v.pos, v.got)
    requires PlaceInv(cfg.BlockSize(), w, ix.readers[t], g.m.live, g.done + Interval(s.work[t].start, s.work[t].end))
    requires AllDone(cfg.BlockSize(), g.done + Interval(s.work[t].start, s.work[t].end), s.ix.readers[t].lo) ==> w.Clearing?
    requires w.Clearing? ==> ix.readers[t] == s.ix.readers[t]
    ensures var v := s.work[t];
            Inv(cfg, SetWork(s.(blocks := Marked(s.blocks, v.b, v.end - v.start), ix := ix), t, w), g.(done := g.done + Interval(v.start, v.end)))
  {
    hide Quot, Rem, BlockIndex.Inv, Tickets.Inv, Claims, Places, Counts, Retired, DoneSet, Data, Owners, EnqInv, ClaimInv, PlaceInv, BlockInv, HasItem, Holds, Unmoved;
    PlaceAt(cfg, s, g, t);
    MovingReader(cfg.BlockSize(), s.work[t], s.ix.readers[t], g.m.live, g.done);
    MarkedPlace(s.work[t], w, s.tk.pcs[t], g.stream);
    var B, v, k, n := cfg.BlockSize(), s.work[t], s.ix.readers[t].lo, s.work[t].end - s.work[t].start;
    var done, work, blocks := g.done + Interval(v.start, v.end), s.work[t := w], Marked(s.blocks, v.b, n);
    MovingFacts(cfg, s, g, t);
    LivesInjective(cfg, s, g);
    ClaimBelowHead(cfg, s, g, t);
    HoldsApart(cfg, s, g, t);
    HeldNotDone(s.work, s.tk.head, g.done, t, v.start, v.end);
    ClaimsUpdate(s.work, s.tk.pcs, g.stream, work, t);
    PlacesGrow(B, s.work, s.ix.readers, g.m.live, g.done, done);
    PlacesUpdate(B, s.work, s.ix.readers, work, ix.readers, g.m.live, done, t);
    MarkedCounts(B, s.blocks, g.m.live, g.m.committed, g.done, k, v.start, v.end);
    MarkedRetired(B, s.work, s.ix.readers, g.m.live, g.m.committed, g.done, k, v.start, v.end, work, ix.readers, t);
    MarkedDoneSet(s.work, s.tk.head, g.done, t, v.start, v.end, work);
    MarkedData(B, s.blocks, v.b, n, s.work, work, s.tk.head, g.m.live, g.stream);
    OwnersUnmoved(s.blocks, blocks, s.work, work, s.enq, g.m.live, t);
    MarkedEnq(cfg, s, g, k, n);
  }

  lemma HeldNotDone(work: seq<Work>, head: nat, done: set<nat>, t: nat, start: nat, end: nat)
    requires DoneSet(work, head, done) && t < |work| && Active(work[t]) && Undone(work[t]) == start && end <= work[t].first + work[t].count
    ensures forall i :: start <= i < end ==> i !in done
  {
    forall i | start <= i < end ensures i !in done {
      assert Holds(work[t], i);
    }
  }

  lemma PlacesGrow(B: nat, work: seq<Work>, readers: seq<BlockIndex.Reader>, live: Live, done: set<nat>, done': set<nat>)
    requires Places(B, work, readers, live, done) && done <= done'
    ensures Places(B, work, readers, live, done')
  {
    forall u | 0 <= u < |work| ensures PlaceInv(B, work[u], readers[u], live, done') {
      assert PlaceInv(B, work[u], readers[u], live, done);
    }
  }

  /** After the last element of its claim in a block, a consumer goes on to the next block or is through. */
  lemma NextPlace(B: nat, w: Work, r: BlockIndex.Reader, live: Live, done: set<nat>, done': set<nat>, capacity: nat)
    requires B > 0 && w.Moving? && w.pos == w.end && PlaceInv(B, w, r, live, done) && capacity > 0
    ensures PlaceInv(B, Next(w.first, w.count, w.pos, w.got), BlockIndex.NextBlock(r, capacity), live, done')
    ensures AllDone(B, done', r.lo) ==> PlaceInv(B, Clearing(w.first, w.count, w.pos, w.got, w.b), r, live, done')
  {
    hide Rem, Quot;
    var last := w.first + w.count - 1;
    assert (r.lo + 1) * B == r.lo * B + B;
    BlocksOrdered(B, r.lo, r.hi, w.start, last);
    if w.pos < w.first + w.count {
      assert r.lo != r.hi;
    } else {
      BlocksOrdered(B, r.hi, r.lo, last, last);
    }
  }

  // ------------------------------------------------------------------ the end of a block

  lemma MarkResult(cfg: Config, s: State, t: nat)
    requires cfg.Valid() && Shape(s) && Enabled(cfg, s, Consume(t)) && s.work[t].Moving? && s.work[t].pos >= s.work[t].end
    requires cfg.BlockSize() > 0 && s.work[t].b in s.blocks && Rem(s.work[t].pos, cfg.BlockSize()) < |s.blocks[s.work[t].b].cells|
    requires s.work[t].start < s.work[t].end
    ensures s.ix.readers[t].h < |s.ix.headers|
    ensures var w, ix := s.work[t], s.ix;
            var n := w.end - w.start;
            Apply(cfg, s, Consume(t)) ==
              if s.blocks[w.b].empties + n == cfg.BlockSize()
              then SetWork(s.(blocks := Marked(s.blocks, w.b, n)), t, Clearing(w.first, w.count, w.pos, w.got, w.b))
              else SetWork(s.(blocks := Marked(s.blocks, w.b, n), ix := BlockIndex.Apply(cfg, ix, BlockIndex.Skip(t))), t, Next(w.first, w.count, w.pos, w.got))
  {
    hide Quot, Rem;
  }

  lemma SkipResult(cfg: Config, ix: BlockIndex.State, t: nat)
    requires cfg.Valid() && BlockIndex.Shape(ix) && BlockIndex.Enabled(ix, BlockIndex.Skip(t))
    ensures ix.readers[t].h < |ix.headers| && ix.headers[ix.readers[t].h].capacity > 0
    ensures BlockIndex.Apply(cfg, ix, BlockIndex.Skip(t)) == BlockIndex.SetReader(ix, t, BlockIndex.NextBlock(ix.readers[t], ix.headers[ix.readers[t].h].capacity))
  {
    hide Quot, Rem;
    assert BlockIndex.ReaderShape(ix, ix.readers[t]);
  }

  /** The count after a consumer's set_many_empty is within the block, as the code asserts,
      and tells whether the block is emptied. */
  lemma CountTells(cfg: Config, s: State, g: Ghost, t: nat)
    requires Inv(cfg, s, g) && t < |s.work| && s.work[t].Moving? && s.work[t].pos >= s.work[t].end
    ensures var w, k := s.work[t], s.ix.readers[t].lo;
            && w.b in s.blocks && w.start < w.end == w.pos
            && s.blocks[w.b].empties + (w.end - w.start) <= cfg.BlockSize()
            && (s.blocks[w.b].empties + (w.end - w.start) == cfg.BlockSize() <==> AllDone(cfg.BlockSize(), g.done + Interval(w.start, w.end), k))
  {
    hide Quot, Rem, BlockIndex.Inv, Tickets.Inv, Claims, Places, Counts, Retired, DoneSet, Data, Owners, EnqInv;
    PlaceAt(cfg, s, g, t);
    MovingFacts(cfg, s, g, t);
    var w, k := s.work[t], s.ix.readers[t].lo;
    HeldNotDone(s.work, s.tk.head, g.done, t, w.start, w.end);
    DoneCount(cfg.BlockSize(), g.done, k, w.start, w.end);
    FullCount(cfg.BlockSize(), g.done + Interval(w.start, w.end), k);
  }

  /** set_many_empty: the block's count stays the number of its elements done. */
  lemma StepMark(cfg: Config, s: State, g: Ghost, t: nat)
    requires Inv(cfg, s, g) && Shape(s) && Enabled(cfg, s, Consume(t)) && s.work[t].Moving? && s.work[t].pos >= s.work[t].end
    ensures s.work[t].start < s.work[t].end
    ensures Inv(cfg, Apply(cfg, s, Consume(t)), g.(done := g.done + Interval(s.work[t].start, s.work[t].end)))
  {
    hide Quot, Rem, BlockIndex.Inv, Tickets.Inv, Claims, Places, Counts, Retired, DoneSet, Data, Owners, EnqInv, AllDone, BlockIndex.Shape;
    PlaceAt(cfg, s, g, t);
    MovingFacts(cfg, s, g, t);
    CountTells(cfg, s, g, t);
    MarkResult(cfg, s, t);
    var w, r, B := s.work[t], s.ix.readers[t], cfg.BlockSize();
    SkipResult(cfg, s.ix, t);
    NextPlace(B, w, r, g.m.live, g.done, g.done + Interval(w.start, w.end), s.ix.headers[r.h].capacity);
    if s.blocks[w.b].empties + (w.end - w.start) == B {
      MarkedInv(cfg, s, g, t, Clearing(w.first, w.count, w.pos, w.got, w.b), s.ix);
    } else {
      BlockIndex.StepInv(cfg, s.ix, g.m, BlockIndex.Skip(t));
      MarkedInv(cfg, s, g, t, Next(w.first, w.count, w.pos, w.got), BlockIndex.Apply(cfg, s.ix, BlockIndex.Skip(t)));
    }
  }

  // ------------------------------------------------------------------ taking a block out of the index

  /** A lookup passes through an element of each block on its way. */
  lemma OnTheWay(B: nat, lo: nat, hi: nat, at: nat, end: nat, k: nat) returns (i: nat)
    requires B > 0 && at < end && InBlock(B, lo, at) && InBlock(B, hi, end - 1) && lo <= k <= hi
    ensures InBlock(B, k, i) && at <= i < end
  {
    i := if k == lo then at else k * B;
    if lo < k { BlocksApart(B, lo, k); }
    if k < hi { BlocksApart(B, k, hi); }
  }

  /** A consumer that still needs a block holds an element of it, unless it is clearing its entry. */
  lemma PinnedIsHeld(B: nat, w: Work, r: BlockIndex.Reader, live: Live, done: set<nat>, k: nat) returns (i: nat)
    requires B > 0 && PlaceInv(B, w, r, live, done) && BlockIndex.Pins(r, k) && (w.Clearing? ==> r.lo != k)
    ensures InBlock(B, k, i) && Holds(w, i)
  {
    hide Quot, Rem, AllDone;
    match w
    case Looking(first, count, pos, _) => i := OnTheWay(B, r.lo, r.hi, pos, first + count, k);
    case Moving(first, count, _, _, _, start, _) => i := OnTheWay(B, r.lo, r.hi, start, first + count, k);
    case Clearing(first, count, pos, _, _) =>
      assert (r.lo + 1) * B == r.lo * B + B;
      i := OnTheWay(B, r.lo + 1, r.hi, pos, first + count, k);
    case Giving(first, count, pos, _, _) => i := OnTheWay(B, r.lo, r.hi, pos, first + count, k);
  }

  /** Nobody else needs the block whose entry a consumer is about to clear. */
  lemma NoOtherPins(cfg: Config, s: State, g: Ghost, t: nat, u: nat)
    requires Inv(cfg, s, g) && t < |s.work| && u < |s.work| && u != t && s.work[t].Clearing?
    ensures s.ix.readers[t].Found? && !BlockIndex.Pins(s.ix.readers[u], s.ix.readers[t].lo)
    ensures !s.ix.readers[u].Off? ==> s.ix.readers[u].lo != s.ix.readers[t].lo
  {
    hide Quot, Rem, Tickets.Inv, Claims, Places, Counts, Data, Owners, EnqInv;
    PlaceAt(cfg, s, g, t);
    PlaceAt(cfg, s, g, u);
    BlockSizePositive(cfg);
    var k := s.ix.readers[t].lo;
    if !s.ix.readers[u].Off? {
      ReaderPins(|s.ix.headers|, g.m, s.ix.readers, u);
    }
    if BlockIndex.Pins(s.ix.readers[u], k) {
      if s.work[u].Clearing? && s.ix.readers[u].lo == k {
        assert false;
      } else {
        var i := PinnedIsHeld(cfg.BlockSize(), s.work[u], s.ix.readers[u], g.m.live, g.done, k);
        assert false;
      }
    }
  }

  function Given(w: Work): Work
    requires w.Clearing?
  {
    Giving(w.first, w.count, w.pos, w.got, w.b)
  }

  lemma GivenPlace(B: nat, w: Work, r: BlockIndex.Reader, pc: Tickets.Pc, stream: seq<Item>, live: Live, done: set<nat>, live': Live, capacity: nat)
    requires B > 0 && w.Clearing? && ClaimInv(w, pc, stream) && PlaceInv(B, w, r, live, done) && capacity > 0
    ensures ClaimInv(Given(w), pc, stream) && PlaceInv(B, Given(w), BlockIndex.NextBlock(r, capacity), live', done)
    ensures forall i :: Holds(Given(w), i) <==> Holds(w, i)
    ensures forall i :: Unmoved(Given(w), i) ==> Unmoved(w, i)
  {
    hide Quot, Rem, AllDone;
    assert (r.lo + 1) * B == r.lo * B + B;
  }

  lemma ClearedPlaces(B: nat, work: seq<Work>, readers: seq<BlockIndex.Reader>, work': seq<Work>, readers': seq<BlockIndex.Reader>,
                      live: Live, done: set<nat>, k: nat, t: nat)
    requires Places(B, work, readers, live, done) && t < |work| == |work'| == |readers'|
    requires forall u :: 0 <= u < |work| && u != t ==> work'[u] == work[u] && readers'[u] == readers[u] && (!readers[u].Off? ==> readers[u].lo != k)
    requires PlaceInv(B, work'[t], readers'[t], live - {k}, done)
    ensures Places(B, work', readers', live - {k}, done)
  {
    hide Quot, Rem, AllDone;
    forall u | 0 <= u < |work| ensures PlaceInv(B, work'[u], readers'[u], live - {k}, done) {
      if u != t {
        assert PlaceInv(B, work[u], readers[u], live, done);
      }
    }
  }

  lemma ClearedCounts(B: nat, blocks: Pool, live: Live, committed: int, done: set<nat>, k: nat)
    requires Counts(B, blocks, live, committed, done)
    ensures Counts(B, blocks, live - {k}, committed, done)
  {
    forall l | l in live - {k} && l <= committed ensures BlockInv(B, blocks, live - {k}, done, l) {
      assert BlockInv(B, blocks, live, done, l);
    }
  }

  lemma ClearedRetired(B: nat, work: seq<Work>, readers: seq<BlockIndex.Reader>, live: Live, committed: int, done: set<nat>, k: nat,
                       work': seq<Work>, readers': seq<BlockIndex.Reader>, t: nat)
    requires Retired(B, work, readers, live, committed, done) && AllDone(B, done, k)
    requires |work'| == |work| == |readers| == |readers'| && t < |work| && readers[t].Found? && readers[t].lo == k
    requires forall u :: 0 <= u < |work| && u != t ==> work'[u] == work[u] && readers'[u] == readers[u]
    requires !work'[t].Clearing?
    ensures Retired(B, work', readers', live - {k}, committed, done)
  {
    hide AllDone;
    forall l | l in live - {k} && l <= committed && AllDone(B, done, l) ensures ClearedBySome(work', readers', l) {
      assert ClearedBySome(work, readers, l);
      var u :| 0 <= u < |work| && u < |readers| && work[u].Clearing? && readers[u].Found? && readers[u].lo == l;
      assert work'[u].Clearing? && readers'[u].lo == l;
    }
  }

  lemma ClearedData(B: nat, blocks: Pool, work: seq<Work>, work': seq<Work>, head: nat, live: Live, stream: seq<Item>, done: set<nat>, k: nat)
    requires B > 0 && Data(B, blocks, work, head, live, stream) && AllDone(B, done, k) && |work'| == |work|
    requires forall i <- done :: i < head
    requires forall u, i: nat :: 0 <= u < |work| && Unmoved(work'[u], i) ==> Unmoved(work[u], i)
    requires forall u, i: nat :: 0 <= u < |work| && Unmoved(work[u], i) ==> i !in done
    ensures Data(B, blocks, work', head, live - {k}, stream)
  {
    hide Quot, Rem, Unmoved;
    forall i: nat | head <= i < |stream| ensures Stored(B, blocks, live - {k}, stream, i) {
      OwnBlock(B, i);
      assert Stored(B, blocks, live, stream, i);
    }
    forall u, i: nat | 0 <= u < |work'| && Unmoved(work'[u], i) ensures Stored(B, blocks, live - {k}, stream, i) {
      assert Unmoved(work[u], i);
      OwnBlock(B, i);
      assert Stored(B, blocks, live, stream, i);
    }
  }

  /** The block cleared passes from the index to the consumer. */
  lemma ClearedOwners(blocks: Pool, work: seq<Work>, work': seq<Work>, e: Enqueuer, live: Live, k: nat, t: nat)
    requires Owners(blocks, work, e, live) && Injective(live) && k in live
    requires |work| == |work'| && t < |work| && !work[t].Giving? && work'[t].Giving? && work'[t].b == live[k]
    requires forall u :: 0 <= u < |work| && u != t ==> work'[u] == work[u]
    ensures Owners(blocks, work', e, live - {k})
  {
    var b := live[k];
    var live' := live - {k};
    assert b in live.Values && b !in live'.Values;
    forall c ensures c in live.Values <==> c in live'.Values || c == b {
      if c in live.Values && c != b {
        var l :| l in live && live[l] == c;
        assert l in live' && live'[l] == c;
      }
    }
    forall c ensures GivenBySome(work', c) <==> GivenBySome(work, c) || c == b {
      if GivenBySome(work, c) {
        var u :| 0 <= u < |work| && work[u].Giving? && work[u].b == c;
        assert work'[u].Giving?;
      }
      if GivenBySome(work', c) && c != b {
        var u :| 0 <= u < |work'| && work'[u].Giving? && work'[u].b == c;
        assert work[u].Giving?;
      }
      assert work'[t].b == b;
    }
    forall u | 0 <= u < |work| && u != t && work'[u].Giving? ensures work'[u].b != b {
      assert GivenBySome(work, work[u].b);
    }
  }

  lemma ClearedInv(cfg: Config, s: State, g: Ghost, t: nat, ix: BlockIndex.State)
    requires Inv(cfg, s, g) && t < |s.work| && s.work[t].Clearing? && s.ix.readers[t].Found?
    requires forall u :: 0 <= u < |s.work| && u != t && !s.ix.readers[u].Off? ==> s.ix.readers[u].lo != s.ix.readers[t].lo
    requires BlockIndex.Inv(cfg, ix, g.m.(live := g.m.live - {s.ix.readers[t].lo})) && ix.writer == s.ix.writer
    requires |ix.readers| == |s.ix.readers| && forall u :: 0 <= u < |ix.readers| && u != t ==> ix.readers[u] == s.ix.readers[u]
    requires exists capacity: nat :: capacity > 0 && ix.readers[t] == BlockIndex.NextBlock(s.ix.readers[t], capacity)
    ensures Inv(cfg, SetWork(s.(ix := ix), t, Given(s.work[t])), g.(m := g.m.(live := g.m.live - {s.ix.readers[t].lo})))
  {
    hide Quot, Rem, BlockIndex.Inv, Tickets.Inv, Claims, Places, Counts, Retired, DoneSet, Data, Owners, EnqInv, ClaimInv, PlaceInv, AllDone, Holds, Unmoved;
    var B, w, r, k := cfg.BlockSize(), s.work[t], s.ix.readers[t], s.ix.readers[t].lo;
    var capacity: nat :| capacity > 0 && ix.readers[t] == BlockIndex.NextBlock(r, capacity);
    var work, live := s.work[t := Given(w)], g.m.live - {k};
    BlockSizePositive(cfg);
    PlaceAt(cfg, s, g, t);
    ClearingFacts(cfg, s, g, t);
    LivesInjective(cfg, s, g);
    GivenPlace(B, w, r, s.tk.pcs[t], g.stream, g.m.live, g.done, live, capacity);
    ClaimsUpdate(s.work, s.tk.pcs, g.stream, work, t);
    ClearedPlaces(B, s.work, s.ix.readers, work, ix.readers, g.m.live, g.done, k, t);
    ClearedCounts(B, s.blocks, g.m.live, g.m.committed, g.done, k);
    ClearedRetired(B, s.work, s.ix.readers, g.m.live, g.m.committed, g.done, k, work, ix.readers, t);
    HoldingUnmoved(s.work, work, t, s.tk.head, g.done);
    UnmovedNotDone(cfg, s, g);
    ClearedData(B, s.blocks, s.work, work, s.tk.head, g.m.live, g.stream, g.done, k);
    ClearedOwners(s.blocks, s.work, work, s.enq, g.m.live, k, t);
    ClearedEnq(cfg, s, g, k);
  }

  lemma ClearingFacts(cfg: Config, s: State, g: Ghost, t: nat)
    requires Inv(cfg, s, g) && t < |s.work| && s.work[t].Clearing?
    ensures s.ix.readers[t].Found?
    ensures var k := s.ix.readers[t].lo;
            k in g.m.live && k <= g.m.committed && s.work[t].b == g.m.live[k] && AllDone(cfg.BlockSize(), g.done, k)
  {
    hide Quot, Rem, Tickets.Inv, Claims, Counts, Retired, DoneSet, Data, Owners, EnqInv, AllDone;
    PlaceAt(cfg, s, g, t);
    ReaderPins(|s.ix.headers|, g.m, s.ix.readers, t);
  }

  lemma UnmovedNotDone(cfg: Config, s: State, g: Ghost)
    requires Inv(cfg, s, g)
    ensures forall i <- g.done :: i < s.tk.head
    ensures forall u, i: nat :: 0 <= u < |s.work| && Unmoved(s.work[u], i) ==> i !in g.done
  {
    hide Quot, Rem, BlockIndex.Inv, Tickets.Inv, Claims, Counts, Retired, Data, Owners, EnqInv;
    forall u, i: nat | 0 <= u < |s.work| && Unmoved(s.work[u], i) ensures i !in g.done {
      HoldsUnmoved(cfg, s, g, u, i);
    }
  }

  lemma ChainWithout(B: nat, x0: nat, blocks: Pool, live: Live, committed: int, chain: seq<BlockId>, from: nat, k: nat)
    requires ChainLive(B, x0, blocks, live, committed, chain, from) && k <= committed < x0
    ensures ChainLive(B, x0, blocks, live - {k}, committed, chain, from)
  {
    var live' := live - {k};
    forall i: nat | from <= i < |chain| ensures ChainAt(B, x0, blocks, live', chain, i) {
      assert ChainAt(B, x0, blocks, live, chain, i);
    }
  }

  lemma ClearedEnq(cfg: Config, s: State, g: Ghost, k: nat)
    requires Inv(cfg, s, g) && k <= g.m.committed
    ensures EnqInv(cfg, s.tk.tail, s.tk.head, s.tailBlock, s.enq, s.ix.writer, s.blocks, g.m.(live := g.m.live - {k}))
  {
    hide Quot, Rem, BlockIndex.Inv, Tickets.Inv, Claims, Counts, Retired, Data, Owners, ProgressInv, ChainLive;
    ChainWithout(cfg.BlockSize(), NextBlock(cfg, s.tk.tail), s.blocks, g.m.live, g.m.committed, ChainOf(s.enq).0, ChainOf(s.enq).1, k);
  }

  lemma ClearResult(cfg: Config, s: State, t: nat)
    requires cfg.Valid() && Shape(s) && Enabled(cfg, s, Consume(t)) && s.work[t].Clearing?
    ensures s.ix.readers[t].h < |s.ix.headers| && s.ix.headers[s.ix.readers[t].h].capacity > 0
    ensures BlockIndex.Enabled(s.ix, BlockIndex.Release(t))
    ensures Apply(cfg, s, Consume(t)) == SetWork(s.(ix := BlockIndex.Apply(cfg, s.ix, BlockIndex.Release(t))), t, Given(s.work[t]))
    ensures var ix := BlockIndex.Apply(cfg, s.ix, BlockIndex.Release(t));
            && ix.writer == s.ix.writer
            && ix.readers == s.ix.readers[t := BlockIndex.NextBlock(s.ix.readers[t], s.ix.headers[s.ix.readers[t].h].capacity)]
  {
    hide Quot, Rem;
    assert BlockIndex.ReaderShape(s.ix, s.ix.readers[t]);
  }

  /** Clearing the entry of an emptied block: no consumer still needs it. */
  lemma StepClear(cfg: Config, s: State, g: Ghost, t: nat)
    requires Inv(cfg, s, g) && Shape(s) && Enabled(cfg, s, Consume(t)) && s.work[t].Clearing?
    ensures Inv(cfg, Apply(cfg, s, Consume(t)), g.(m := g.m.(live := g.m.live - {s.ix.readers[t].lo})))
  {
    hide Quot, Rem, BlockIndex.Inv, Tickets.Inv, Claims, Places, Counts, Retired, DoneSet, Data, Owners, EnqInv, BlockIndex.Shape, BlockIndex.Pins;
    ClearResult(cfg, s, t);
    forall u | 0 <= u < |s.work| && u != t 
      ensures !BlockIndex.Pins(s.ix.readers[u], s.ix.readers[t].lo)
      ensures !s.ix.readers[u].Off? ==> s.ix.readers[u].lo != s.ix.readers[t].lo
    {
      NoOtherPins(cfg, s, g, t, u);
    }
    BlockIndex.StepInv(cfg, s.ix, g.m, BlockIndex.Release(t));
    ClearedInv(cfg, s, g, t, BlockIndex.Apply(cfg, s.ix, BlockIndex.Release(t)));
  }

  // ------------------------------------------------------------------ giving a block back

  lemma ReturnedOwners(blocks: Pool, work: seq<Work>, work': seq<Work>, e: Enqueuer, live: Live, t: nat)
    requires Owners(blocks, work, e, live)
    requires |work| == |work'| && t < |work| && work[t].Giving? && !work'[t].Giving?
    requires forall u :: 0 <= u < |work| && u != t ==> work'[u] == work[u]
    ensures Owners(blocks - {work[t].b}, work', e, live)
    ensures work[t].b !in live.Values && !Private(e, work[t].b)
  {
    var b := work[t].b;
    assert GivenBySome(work, b);
    forall c ensures GivenBySome(work', c) <==> GivenBySome(work, c) && c != b {
      if GivenBySome(work, c) && c != b {
        var u :| 0 <= u < |work| && work[u].Giving? && work[u].b == c;
        assert work'[u].Giving?;
      }
      if GivenBySome(work', c) {
        var u :| 0 <= u < |work'| && work'[u].Giving? && work'[u].b == c;
        assert work[u].Giving? && u != t;
      }
    }
  }

  /** A block outside the index can leave without a trace. */
  lemma ReturnedBlocks(B: nat, blocks: Pool, work: seq<Work>, work': seq<Work>, head: nat, live: Live, committed: int, stream: seq<Item>, done: set<nat>, b: BlockId)
    requires Counts(B, blocks, live, committed, done) && Data(B, blocks, work, head, live, stream) && b !in live.Values
    requires |work| == |work'| && forall u, i: nat :: 0 <= u < |work| && Unmoved(work'[u], i) ==> Unmoved(work[u], i)
    ensures Counts(B, blocks - {b}, live, committed, done) && Data(B, blocks - {b}, work', head, live, stream)
  {
    hide Quot, Rem;
    assert forall k <- live :: live[k] in live.Values;
    forall l | l in live && l <= committed ensures BlockInv(B, blocks - {b}, live, done, l) {
      assert BlockInv(B, blocks, live, done, l);
    }
    forall i: nat | head <= i < |stream| ensures Stored(B, blocks - {b}, live, stream, i) {
      assert Stored(B, blocks, live, stream, i);
    }
    forall u, i: nat | 0 <= u < |work'| && Unmoved(work'[u], i) ensures Stored(B, blocks - {b}, live, stream, i) {
      assert Stored(B, blocks, live, stream, i);
    }
  }

  lemma ReturnedEnq(cfg: Config, s: State, g: Ghost, b: BlockId)
    requires Inv(cfg, s, g) && b !in g.m.live.Values && !Private(s.enq, b)
    ensures EnqInv(cfg, s.tk.tail, s.tk.head, s.tailBlock, s.enq, s.ix.writer, s.blocks - {b}, g.m)
  {
    hide Quot, Rem, BlockIndex.Inv, Tickets.Inv, Claims, Counts, Retired, DoneSet, Data;
    BlockSizePositive(cfg);
    LivesInjective(cfg, s, g);
    assert forall k <- g.m.live :: g.m.live[k] in g.m.live.Values;
    ProgressKept(cfg, s, g, s.blocks - {b});
    ChainKept(cfg.BlockSize(), NextBlock(cfg, s.tk.tail), s.blocks, s.blocks - {b}, g.m.live, g.m.committed, ChainOf(s.enq).0, ChainOf(s.enq).1);
  }

  lemma ReturnedPlace(B: nat, w: Work, r: BlockIndex.Reader, pc: Tickets.Pc, stream: seq<Item>, live: Live, done: set<nat>)
    requires w.Giving? && ClaimInv(w, pc, stream) && PlaceInv(B, w, r, live, done)
    ensures var w' := Next(w.first, w.count, w.pos, w.got);
            && ClaimInv(w', pc, stream) && PlaceInv(B, w', r, live, done)
            && (forall i :: Holds(w', i) <==> Holds(w, i)) && (forall i :: Unmoved(w', i) <==> Unmoved(w, i))
  {
  }

  /** The emptied block goes back to the pool, out of everyone's reach. */
  lemma StepGive(cfg: Config, s: State, g: Ghost, t: nat)
    requires Inv(cfg, s, g) && Shape(s) && Enabled(cfg, s, Consume(t)) && s.work[t].Giving?
    ensures Inv(cfg, Apply(cfg, s, Consume(t)), g)
  {
    hide Quot, Rem, BlockIndex.Inv, Tickets.Inv, Claims, Places, Counts, Retired, DoneSet, Data, Owners, EnqInv, ClaimInv, PlaceInv, Holds, Unmoved;
    var B, w := cfg.BlockSize(), s.work[t];
    var w' := Next(w.first, w.count, w.pos, w.got);
    var work := s.work[t := w'];
    PlaceAt(cfg, s, g, t);
    ReturnedPlace(B, w, s.ix.readers[t], s.tk.pcs[t], g.stream, g.m.live, g.done);
    ClaimsUpdate(s.work, s.tk.pcs, g.stream, work, t);
    PlacesUpdate(B, s.work, s.ix.readers, work, s.ix.readers, g.m.live, g.done, t);
    RetiredUnmoved(B, s.work, s.ix.readers, work, s.ix.readers, g.m.live, g.m.committed, g.done, t);
    HoldingUnmoved(s.work, work, t, s.tk.head, g.done);
    ReturnedOwners(s.blocks, s.work, work, s.enq, g.m.live, t);
    ReturnedBlocks(B, s.blocks, s.work, work, s.tk.head, g.m.live, g.m.committed, g.stream, g.done, w.b);
    ReturnedEnq(cfg, s, g, w.b);
    assert Apply(cfg, s, Consume(t)) == SetWork(s.(blocks := s.blocks - {w.b}), t, w');
  }
}
