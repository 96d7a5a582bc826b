/** The invariant of one implicit producer with its consumers: which element is where,
    which are done, and who holds what. The predicates take the parts of the state they
    speak of, so that a step that leaves those parts alone leaves them true. */
module ProducerInvariant {
  import opened Basics
  import opened Circular
  import opened ProducerQueue
  import Tickets
  import BlockIndex

  /** `stream` is everything published so far, in order; `done` are the elements whose
      slots have been counted as emptied; `log` and `m` are what the tickets and the
      block index mean. */
  datatype Ghost = Ghost(log: seq<Tickets.Verdict>, m: BlockIndex.Map, stream: seq<Item>, done: set<nat>)

  type Live = map<nat, BlockId>
  type Pool = map<BlockId, Block>

  ghost predicate InBlock(B: nat, k: nat, i: nat) {
    k * B <= i < k * B + B
  }

  /** The elements of block `k` that are done. */
  ghost function DoneIn(B: nat, done: set<nat>, k: nat): set<nat> {
    set i | i in done && InBlock(B, k, i)
  }

  ghost predicate AllDone(B: nat, done: set<nat>, k: nat) {
    forall i: nat :: InBlock(B, k, i) ==> i in done
  }

  predicate Active(w: Work) {
    !w.Off? && !w.Fault?
  }

  /** The first element of the claim that is not done. */
  function Undone(w: Work): nat
    requires Active(w)
  {
    if w.Moving? then w.start else w.pos
  }

  predicate Holds(w: Work, i: nat) {
    Active(w) && Undone(w) <= i < w.first + w.count
  }

  predicate Unmoved(w: Work, i: nat) {
    Active(w) && w.pos <= i < w.first + w.count
  }

  /** Element `i` is stored where the index says. */
  ghost predicate Stored(B: nat, blocks: Pool, live: Live, stream: seq<Item>, i: nat) {
    && B > 0 && i < |stream|
    && Quot(i, B) in live && live[Quot(i, B)] in blocks
    && Rem(i, B) < |blocks[live[Quot(i, B)]].cells|
    && blocks[live[Quot(i, B)]].cells[Rem(i, B)] == Full(stream[i])
  }

  ghost predicate Base(cfg: Config, s: State, g: Ghost) {
    && cfg.Valid()
    && |s.tk.pcs| == |s.ix.readers| == |s.work|
    && Tickets.Inv(s.tk, g.log)
    && BlockIndex.Inv(cfg, s.ix, g.m)
    && |g.stream| == s.tk.tail
    && g.m.committed + 1 == NextBlock(cfg, s.tk.tail)
    && Room(cfg, s.tk.head, NextBlock(cfg, s.tk.tail))
  }

  /** Block `x` starts less than half a turn beyond the head. */
  ghost predicate Room(cfg: Config, head: nat, x: nat)
    requires cfg.Valid()
  {
    x * cfg.BlockSize() < head + cfg.Half()
  }

  /** The consumer's lookup is for the block of element `at` up to that of element `end - 1`. */
  ghost predicate LooksUp(B: nat, r: BlockIndex.Reader, at: nat, end: nat) {
    !r.Off? && at < end && InBlock(B, r.lo, at) && InBlock(B, r.hi, end - 1)
  }

  /** A consumer holds the claim its tickets won, and has moved out exactly the
      published elements from the first of it on. */
  ghost predicate ClaimInv(w: Work, pc: Tickets.Pc, stream: seq<Item>) {
    && !w.Fault?
    && (w.Off? ==> !pc.Claimed?)
    && (Active(w) ==>
          && pc == Tickets.Claimed(w.first, w.count)
          && w.first <= w.pos <= w.first + w.count <= |stream|
          && |w.got| == w.pos - w.first
          && (forall j :: 0 <= j < |w.got| ==> w.got[j] == Full(stream[w.first + j])))
  }

  /** Where a consumer stands in the blocks of its claim. */
  ghost predicate PlaceInv(B: nat, w: Work, r: BlockIndex.Reader, live: Live, done: set<nat>) {
    match w
    case Off => r.Off?
    case Looking(first, count, pos, _) => LooksUp(B, r, pos, first + count)
    case Moving(first, count, pos, _, b, start, end) =>
      && first <= start <= pos <= end <= first + count && start < end
      && LooksUp(B, r, start, first + count) && r.Found?
      && end == Min(r.lo * B + B, first + count)
      && r.lo in live && b == live[r.lo]
    case Clearing(first, count, pos, _, b) =>
      && first < pos && r.Found? && InBlock(B, r.lo, pos - 1) && pos == Min(r.lo * B + B, first + count)
      && (if pos < first + count then r.lo < r.hi && InBlock(B, r.hi, first + count - 1) else r.lo == r.hi)
      && r.lo in live && b == live[r.lo] && AllDone(B, done, r.lo)
    case Giving(first, count, pos, _, _) =>
      if pos < first + count then LooksUp(B, r, pos, first + count) else r.Off?
    case Done(first, count, pos, _) => pos == first + count && r.Off?
    case Fault => false
  }

  ghost predicate Claims(work: seq<Work>, pcs: seq<Tickets.Pc>, stream: seq<Item>) {
    |work| == |pcs| && forall t :: 0 <= t < |work| ==> ClaimInv(work[t], pcs[t], stream)
  }

  ghost predicate Places(B: nat, work: seq<Work>, readers: seq<BlockIndex.Reader>, live: Live, done: set<nat>) {
    |work| == |readers| && forall t :: 0 <= t < |work| ==> PlaceInv(B, work[t], readers[t], live, done)
  }

  ghost predicate ClearedBySome(work: seq<Work>, readers: seq<BlockIndex.Reader>, k: nat) {
    exists t :: 0 <= t < |work| && t < |readers| && work[t].Clearing? && readers[t].Found? && readers[t].lo == k
  }

  ghost predicate ClearedOnce(work: seq<Work>, readers: seq<BlockIndex.Reader>) {
    forall t, u :: 0 <= t < u < |work| && u < |readers| && work[t].Clearing? && work[u].Clearing? && readers[t].Found? && readers[u].Found?
      ==> readers[t].lo != readers[u].lo
  }

  /** A published block in use counts the elements done. */
  ghost predicate BlockInv(B: nat, blocks: Pool, live: Live, done: set<nat>, k: nat)
    requires k in live
  {
    live[k] in blocks && |blocks[live[k]].cells| == B && blocks[live[k]].empties == |DoneIn(B, done, k)|
  }

  ghost predicate Counts(B: nat, blocks: Pool, live: Live, committed: int, done: set<nat>) {
    forall k <- live :: k <= committed ==> BlockInv(B, blocks, live, done, k)
  }

  /** A published block leaves the index exactly when all its elements are done: it is
      out, or exactly one consumer is about to clear its entry. */
  ghost predicate Retired(B: nat, work: seq<Work>, readers: seq<BlockIndex.Reader>, live: Live, committed: int, done: set<nat>) {
    && (forall k <- live :: k <= committed && AllDone(B, done, k) ==> ClearedBySome(work, readers, k))
    && (forall k: nat :: k <= committed && k !in live ==> AllDone(B, done, k))
    && ClearedOnce(work, readers)
  }

  ghost predicate HeldBySome(work: seq<Work>, i: nat) {
    exists t :: 0 <= t < |work| && Holds(work[t], i)
  }

  /** Every claimed element is either done or held by a consumer, not both. */
  ghost predicate DoneSet(work: seq<Work>, head: nat, done: set<nat>) {
    && (forall i <- done :: i < head)
    && (forall t, i: nat :: 0 <= t < |work| && Holds(work[t], i) ==> i !in done)
    && (forall i: nat :: i < head && i !in done ==> HeldBySome(work, i))
  }

  /** Published elements not yet moved out are stored. */
  ghost predicate Data(B: nat, blocks: Pool, work: seq<Work>, head: nat, live: Live, stream: seq<Item>) {
    && (forall i: nat :: head <= i < |stream| ==> Stored(B, blocks, live, stream, i))
    && (forall t, i: nat :: 0 <= t < |work| && Unmoved(work[t], i) ==> Stored(B, blocks, live, stream, i))
  }

  /** Blocks the producer thread holds that are not in the index. */
  ghost predicate Private(e: Enqueuer, b: BlockId) {
    match e
    case Clean(_, _, _, c) => b == c
    case Store(_, _, _, c) => b == c
    case Undo(chain, j) => j <= |chain| && b in chain[..j]
    case Rewind(chain, j) => j < |chain| && b in chain[..j + 1]
    case GiveBack(chain, j) => j <= |chain| && b in chain[j..]
    case _ => false
  }

  ghost predicate GivenBySome(work: seq<Work>, b: BlockId) {
    exists t :: 0 <= t < |work| && work[t].Giving? && work[t].b == b
  }

  ghost predicate GivenOnce(work: seq<Work>) {
    forall t, u :: 0 <= t < u < |work| && work[t].Giving? && work[u].Giving? ==> work[t].b != work[u].b
  }

  /** Every block held is in the index, or with a consumer on its way back, or private to
      the producer thread: exactly one of the three. */
  ghost predicate Owners(blocks: Pool, work: seq<Work>, e: Enqueuer, live: Live) {
    && (forall b :: b in blocks <==> b in live.Values || Private(e, b) || GivenBySome(work, b))
    && (forall b :: Private(e, b) ==> b !in live.Values && !GivenBySome(work, b))
    && (forall b :: GivenBySome(work, b) ==> b !in live.Values)
    && GivenOnce(work)
  }

  // ------------------------------------------------------------------ the producer thread

  ghost predicate Distinct(chain: seq<BlockId>) {
    forall i, j :: 0 <= i < j < |chain| ==> chain[i] != chain[j]
  }

  ghost predicate CleanBlock(B: nat, blocks: Pool, b: BlockId) {
    b in blocks && |blocks[b].cells| == B && blocks[b].empties == 0
  }

  ghost predicate ChainAt(B: nat, x0: nat, blocks: Pool, live: Live, chain: seq<BlockId>, i: nat) {
    i < |chain| && x0 + i in live && live[x0 + i] == chain[i] && CleanBlock(B, blocks, chain[i])
  }

  /** Blocks `from ..` of the chain are in the index from number `x0 + from` on, clean;
      nothing else is beyond the committed ones. */
  ghost predicate ChainLive(B: nat, x0: nat, blocks: Pool, live: Live, committed: int, chain: seq<BlockId>, from: nat) {
    && Distinct(chain)
    && (forall i: nat :: from <= i < |chain| ==> ChainAt(B, x0, blocks, live, chain, i))
    && (forall k <- live :: k > committed ==> x0 + from <= k < x0 + |chain|)
  }

  /** Where the producer constructs element `p`. */
  function Target(B: nat, x0: nat, tailBlock: BlockId, chain: seq<BlockId>, p: nat): BlockId
    requires B > 0
  {
    var x := Quot(p, B);
    if x >= x0 && x - x0 < |chain| then chain[x - x0] else tailBlock
  }

  /** The first `i` items are constructed, from element `tail` on. */
  ghost predicate Constructed(B: nat, tail: nat, x0: nat, blocks: Pool, tailBlock: BlockId, items: seq<Item>, chain: seq<BlockId>, i: nat) {
    B > 0 && forall j :: 0 <= j < |items| && j < i ==> HasItem(B, blocks, Target(B, x0, tailBlock, chain, tail + j), tail + j, items[j])
  }

  ghost predicate HasItem(B: nat, blocks: Pool, b: BlockId, p: nat, v: Item)
    requires B > 0
  {
    b in blocks && Rem(p, B) < |blocks[b].cells| && blocks[b].cells[Rem(p, B)] == Full(v)
  }

  /** The block the tail is in, while it is still in use, is the one elements are added to. */
  ghost predicate TailBlockInv(B: nat, tail: nat, tailBlock: BlockId, live: Live, committed: int) {
    B > 0 && (Rem(tail, B) != 0 && committed >= 0 && committed in live ==> live[committed] == tailBlock)
  }

  /** How far the block index has got for each place in the producer's code. */
  ghost predicate IndexPlace(e: Enqueuer, w: BlockIndex.Writer, x0: nat, last: int, committed: int) {
    match e
    case Ready => w.Rest? && last == committed
    case Check(_, x, chain) => w.Rest? && x == x0 + |chain| && last == x - 1
    case Insert(_, x, chain) =>
      && x == x0 + |chain| && last == (if w.Inserted? then x else x - 1)
      && (w.Refused? || ((w.Look? || w.Grow? || w.PutKey? || w.PutTail? || w.Inserted?) && w.x == x))
    case Clean(_, x, chain, _) => x == x0 + |chain| == last && w.Inserted? && w.x == x
    case Store(_, x, chain, _) => x == x0 + |chain| == last && w.Inserted? && w.x == x
    case Cancel(chain) => w.Drop? && last == x0 + |chain| - 1
    case Undo(chain, j) => j <= |chain| && w.Rest? && last == x0 + |chain| - 1 - j
    case Rewind(chain, j) => j < |chain| && w.Unwind? && last == x0 + |chain| - 1 - j
    case GiveBack(chain, j) => j <= |chain| && w.Rest? && last == committed
    case Construct(_, chain, _) => w.Rest? && last == x0 + |chain| - 1
    case Publish(_, chain) => w.Rest? && last == x0 + |chain| - 1
  }

  /** The part of the chain that is in the index. */
  function ChainOf(e: Enqueuer): (seq<BlockId>, nat) {
    match e
    case Ready => ([], 0)
    case Undo(chain, j) => (chain, j)
    case Rewind(chain, j) => (chain, j + 1)
    case GiveBack(chain, _) => (chain, |chain|)
    case _ => (e.chain, 0)
  }

  /** The number of blocks that hold everything published and `items`. */
  function Needed(cfg: Config, tail: nat, items: seq<Item>): nat {
    NextBlock(cfg, tail + |items|)
  }

  ghost predicate ProgressInv(cfg: Config, tail: nat, head: nat, tailBlock: BlockId, e: Enqueuer, blocks: Pool)
    requires cfg.Valid()
  {
    var B, x0 := cfg.BlockSize(), NextBlock(cfg, tail);
    match e
    case Check(items, x, _) => Room(cfg, head, x) && x <= Needed(cfg, tail, items)
    case Insert(items, x, _) => Room(cfg, head, x + 1) && x < Needed(cfg, tail, items)
    case Clean(items, x, _, b) => Room(cfg, head, x + 1) && x < Needed(cfg, tail, items) && b in blocks && |blocks[b].cells| == B
    case Store(items, x, _, b) => Room(cfg, head, x + 1) && x < Needed(cfg, tail, items) && CleanBlock(B, blocks, b)
    case Construct(items, chain, i) =>
      && Room(cfg, head, x0 + |chain|) && x0 + |chain| == Needed(cfg, tail, items) && i <= |items|
      && Constructed(B, tail, x0, blocks, tailBlock, items, chain, i)
    case Publish(items, chain) =>
      && Room(cfg, head, x0 + |chain|) && x0 + |chain| == Needed(cfg, tail, items)
      && Constructed(B, tail, x0, blocks, tailBlock, items, chain, |items|)
    case _ => true
  }

  ghost predicate EnqInv(cfg: Config, tail: nat, head: nat, tailBlock: BlockId, e: Enqueuer, w: BlockIndex.Writer, blocks: Pool, m: BlockIndex.Map)
    requires cfg.Valid()
  {
    var B, x0 := cfg.BlockSize(), NextBlock(cfg, tail);
    && TailBlockInv(B, tail, tailBlock, m.live, m.committed)
    && IndexPlace(e, w, x0, m.last, m.committed)
    && ChainLive(B, x0, blocks, m.live, m.committed, ChainOf(e).0, ChainOf(e).1)
    && ProgressInv(cfg, tail, head, tailBlock, e, blocks)
  }

  ghost predicate Inv(cfg: Config, s: State, g: Ghost) {
    && Base(cfg, s, g)
    && var B := cfg.BlockSize();
    && Claims(s.work, s.tk.pcs, g.stream)
    && Places(B, s.work, s.ix.readers, g.m.live, g.done)
    && Counts(B, s.blocks, g.m.live, g.m.committed, g.done)
    && Retired(B, s.work, s.ix.readers, g.m.live, g.m.committed, g.done)
    && DoneSet(s.work, s.tk.head, g.done)
    && Data(B, s.blocks, s.work, s.tk.head, g.m.live, g.stream)
    && Owners(s.blocks, s.work, s.enq, g.m.live)
    && EnqInv(cfg, s.tk.tail, s.tk.head, s.tailBlock, s.enq, s.ix.writer, s.blocks, g.m)
  }

  /** No ticket holder falls half an index range behind (Tickets.Timely), and no consumer
      still at work on its claim a whole one while the producer opens a block. */
  predicate Recent(cfg: Config, s: State)
    requires cfg.indexBits > 0
  {
    && Tickets.Timely(cfg.Half(), s.tk)
    && (s.enq.Insert? ==> forall t :: 0 <= t < |s.work| && Active(s.work[t]) ==>
          (s.enq.x - Quot(s.work[t].first, cfg.BlockSize())) * cfg.BlockSize() < 2 * cfg.Half())
  }

  // ------------------------------------------------------------------ arithmetic of blocks

  lemma BlockSizePositive(cfg: Config)
    requires cfg.Valid()
    ensures 2 <= cfg.BlockSize() <= cfg.Half()
  {
    assert cfg.BlockSize() == 2 * Pow2(cfg.blockBits - 1);
    Pow2Monotone(cfg.blockBits, cfg.indexBits - 1);
  }

  lemma BlockIs(B: nat, k: nat, i: nat)
    requires B > 0 && InBlock(B, k, i)
    ensures Quot(i, B) == k && Rem(i, B) == i - k * B
  {
    QuotUnique(i, B, k);
  }

  lemma BlocksApart(B: nat, k: nat, l: nat)
    requires k < l
    ensures k * B + B <= l * B
  {
    assert (l - k - 1) * B >= 0;
    assert l * B == k * B + B + (l - k - 1) * B;
  }

  lemma BlocksOrdered(B: nat, k: nat, l: nat, i: nat, j: nat)
    requires InBlock(B, k, i) && InBlock(B, l, j) && i <= j
    ensures k <= l
  {
    if l < k { BlocksApart(B, l, k); }
  }

  /** The number of the block that starts at or after element `n`. */
  lemma NextBlockBounds(cfg: Config, n: nat)
    requires cfg.Valid()
    ensures n <= NextBlock(cfg, n) * cfg.BlockSize() < n + cfg.BlockSize()
    ensures Rem(n, cfg.BlockSize()) == 0 <==> NextBlock(cfg, n) * cfg.BlockSize() == n
  {
    BlockSizePositive(cfg);
    var B, x := cfg.BlockSize(), NextBlock(cfg, n);
    QuotRem(n + B - 1, B);
    if x * B == n {
      QuotUnique(n, B, x);
    } else {
      assert (x - 1) * B == x * B - B;
      QuotUnique(n, B, x - 1);
    }
  }

  lemma NextBlockIs(cfg: Config, n: nat, x: nat)
    requires cfg.Valid() && n <= x * cfg.BlockSize() < n + cfg.BlockSize()
    ensures NextBlock(cfg, n) == x
  {
    QuotUnique(n + cfg.BlockSize() - 1, cfg.BlockSize(), x);
  }

  /** Elements before `n` lie in blocks before the next one. */
  lemma BeforeNextBlock(cfg: Config, n: nat, k: nat, i: nat)
    requires cfg.Valid() && InBlock(cfg.BlockSize(), k, i)
    ensures i < n ==> k < NextBlock(cfg, n)
    ensures i >= n ==> NextBlock(cfg, n) <= k + 1
  {
    NextBlockBounds(cfg, n);
    var x := NextBlock(cfg, n);
    if x <= k && x < k { BlocksApart(cfg.BlockSize(), x, k); }
    if k + 1 < x { BlocksApart(cfg.BlockSize(), k + 1, x); }
  }

  /** Every element lies in the block its quotient says. */
  lemma OwnBlock(B: nat, i: nat)
    requires B > 0
    ensures InBlock(B, Quot(i, B), i) && Rem(i, B) < B
  {
    QuotRem(i, B);
  }
}
