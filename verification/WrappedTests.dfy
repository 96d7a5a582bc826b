/** ProducerQueue carries indices unwrapped and makes three of the code's tests on them: how
    many blocks an enqueue opens, and where the loops over the elements of a block stop.
    The code makes them on index_t words; here both come to the same. */
module WrappedTests {
  import opened Basics
  import opened Circular
  import opened ProducerQueue
  import opened ProducerInvariant
  import opened ProducerConsumers
  import opened ProducerBlocks
  import opened ProducerEnqueuer
  import opened ProducerTheorems
  import opened ProducerRuns
  import Tickets
  import BlockIndex

  // ------------------------------------------------------------------ words

  lemma WrapSub(half: nat, x: int, y: int)
    requires half > 0
    ensures Wrap(half, x - Wrap(half, y)) == Wrap(half, x - y)
  {
    var q := Turns(y, 2 * half);
    RemShift(x - y, q, 2 * half);
  }

  /** `index & ~(BLOCK_SIZE - 1)` */
  function BlockBase(cfg: Config, index: int): (r: int)
    requires cfg.Valid()
  {
    var word: int := Wrap(cfg.Half(), index);
    word - Rem(word, cfg.BlockSize())
  }

  /** Masking the low bits of a word leads to the base of the block the index is in. */
  lemma BaseIsBlock(cfg: Config, index: int, k: int)
    requires cfg.Valid() && k * cfg.BlockSize() <= index < k * cfg.BlockSize() + cfg.BlockSize()
    ensures BlockBase(cfg, index) == Wrap(cfg.Half(), k * cfg.BlockSize())
  {
    var B, half, T := cfg.BlockSize(), cfg.Half(), cfg.Turn();
    BlockIndex.TurnOfBlocks(cfg);
    RemOfMultiple(index, B, T);
    RemUnique(index, B, k, index - k * B);
    var q := Turns(index, 2 * half);
    var word := Wrap(half, index);
    QuotRem(word, B);
    WordBase(word, B, Quot(word, B), Rem(word, B));
    WrapUnique(half, k * B, q, word - Rem(word, B));
  }

  lemma WordBase(word: nat, B: nat, q: nat, r: nat)
    requires word == q * B + r
    ensures word >= r
  {
    assert q * B >= 0;
  }

  // ------------------------------------------------------------------ the end of a block or of the range

  /** stopIndex, or endIndex: the next block's base, or `limit` if that comes first. */
  function EndWord(cfg: Config, index: nat, limit: nat): nat
    requires cfg.Valid()
  {
    var stop := BlockBase(cfg, index) + cfg.BlockSize();
    if CircularLess(cfg.Half(), Wrap(cfg.Half(), limit), stop) then Wrap(cfg.Half(), limit) else Wrap(cfg.Half(), stop)
  }

  function EndOf(cfg: Config, index: nat, limit: nat): nat
    requires cfg.Valid()
  {
    Min(Quot(index, cfg.BlockSize()) * cfg.BlockSize() + cfg.BlockSize(), limit)
  }

  /** The end computed on words is the end, and counting a word up from `index` first meets
      it there. */
  ghost predicate StopsAtEnd(cfg: Config, index: nat, limit: nat)
    requires cfg.Valid()
  {
    && EndWord(cfg, index, limit) == Wrap(cfg.Half(), EndOf(cfg, index, limit))
    && forall i :: index <= i <= EndOf(cfg, index, limit) ==> (Wrap(cfg.Half(), i) == EndWord(cfg, index, limit) <==> i == EndOf(cfg, index, limit))
  }

  lemma StopsWithinHalf(cfg: Config, index: nat, limit: nat)
    requires cfg.Valid() && index <= limit < index + cfg.Half()
    requires index < limit || cfg.BlockSize() < cfg.Half()
    ensures StopsAtEnd(cfg, index, limit)
  {
    hide Quot, Rem, CircularLess, Wrap;
    var B, half, k := cfg.BlockSize(), cfg.Half(), Quot(index, cfg.BlockSize());
    BlockSizePositive(cfg);
    OwnBlock(B, index);
    BaseIsBlock(cfg, index, k);
    var end := k * B + B;
    LessOnWords(half, limit, k * B, B);
    CircularLessExact(half, limit, end);
    WrapSum(half, k * B, B);
    forall i | index <= i <= EndOf(cfg, index, limit) ensures Wrap(half, i) == Wrap(half, EndOf(cfg, index, limit)) <==> i == EndOf(cfg, index, limit) {
      if i != EndOf(cfg, index, limit) { WrapsDiffer(half, i, EndOf(cfg, index, limit)); }
    }
  }

  lemma WrapSum(half: nat, x: int, y: int)
    requires half > 0
    ensures Wrap(half, Wrap(half, x) + y) == Wrap(half, x + y)
  {
    RemAdd(x, y, 2 * half);
  }

  lemma WrapsDiffer(half: nat, x: int, y: int)
    requires half > 0 && x != y && x - y < 2 * half && y - x < 2 * half
    ensures Wrap(half, x) != Wrap(half, y)
  {
    RemDiffer(x, y, 2 * half);
  }

  /** Comparing words is comparing what they are words of. */
  lemma LessOnWords(half: nat, x: int, base: int, B: int)
    requires half > 0
    ensures CircularLess(half, Wrap(half, x), Wrap(half, base) + B) <==> CircularLess(half, x, base + B)
  {
    hide Rem, Wrap;
    WrapSum(half, x, -(Wrap(half, base) + B));
    WrapSub(half, x - B, base);
  }

  /** In every run: a consumer's loops over its claim and over a block of it stop where the
      model says. */
  lemma ConsumerStops(cfg: Config, states: seq<State>, actions: seq<Action>, i: nat, t: nat)
    requires cfg.Valid() && IsRun(cfg, states, actions) && i < |states| && t < |states[i].work| && Active(states[i].work[t])
    ensures var w := states[i].work[t];
            && (w.pos < w.first + w.count ==> StopsAtEnd(cfg, w.pos, w.first + w.count))
            && (Wrap(cfg.Half(), w.pos) != Wrap(cfg.Half(), w.first + w.count) <==> w.pos < w.first + w.count)
  {
    hide Inv, AllPublished, IsStep, IsAnyStep, StopsAtEnd, Wrap, Tickets.Small;
    RecentRunIsAny(cfg, states, actions);
    RunSmall(cfg, states, actions, i);
    var g := RunInv(cfg, states, actions, i);
    ClaimIsShort(cfg, states[i], g, t);
    ShortStops(cfg, states[i].work[t]);
  }

  lemma ShortStops(cfg: Config, w: Work)
    requires cfg.Valid() && Active(w) && w.first <= w.pos <= w.first + w.count && w.count < cfg.Half()
    ensures w.pos < w.first + w.count ==> StopsAtEnd(cfg, w.pos, w.first + w.count)
    ensures Wrap(cfg.Half(), w.pos) != Wrap(cfg.Half(), w.first + w.count) <==> w.pos < w.first + w.count
  {
    hide StopsAtEnd, Wrap;
    if w.pos < w.first + w.count {
      StopsWithinHalf(cfg, w.pos, w.first + w.count);
      WrapsDiffer(cfg.Half(), w.pos, w.first + w.count);
    }
  }

  lemma RecentRunIsAny(cfg: Config, states: seq<State>, actions: seq<Action>)
    requires cfg.Valid() && IsRun(cfg, states, actions)
    ensures IsAnyRun(cfg, states, actions)
  {
    hide Shape, Enabled, Apply, Recent, Initial;
    forall i | 0 <= i < |actions| ensures IsAnyStep(cfg, states[i], actions[i], states[i + 1]) {
      assert IsStep(cfg, states[i], actions[i], states[i + 1]);
    }
  }

  lemma ClaimIsShort(cfg: Config, s: State, g: Ghost, t: nat)
    requires Inv(cfg, s, g) && Tickets.Small(cfg.Half(), s.tk) && t < |s.work| && Active(s.work[t])
    ensures var w := s.work[t]; w.first <= w.pos <= w.first + w.count && w.count < cfg.Half()
  {
    hide BlockIndex.Inv, Tickets.Inv, Counts, Retired, DoneSet, Data, Owners, EnqInv, Quot, Rem;
    PlaceAt(cfg, s, g, t);
    assert Tickets.SmallPc(cfg.Half(), s.tk.pcs[t]);
  }

  /** The producer's loop over the items of a block stops where the model says; with no
      item to construct that takes a block shorter than half a turn. */
  lemma ConstructStops(cfg: Config, s: State, g: Ghost)
    requires Inv(cfg, s, g) && s.enq.Construct? && (s.enq.i < |s.enq.items| || cfg.BlockSize() < cfg.Half())
    ensures StopsAtEnd(cfg, s.tk.tail + s.enq.i, s.tk.tail + |s.enq.items|)
  {
    hide BlockIndex.Inv, Tickets.Inv, Claims, Places, Counts, Retired, DoneSet, Data, Owners, ChainLive, Constructed, StopsAtEnd, Quot, Rem;
    HeadBehind(cfg, s, g);
    NextBlockBounds(cfg, s.tk.tail + |s.enq.items|);
    StopsWithinHalf(cfg, s.tk.tail + s.enq.i, s.tk.tail + |s.enq.items|);
  }

  // ------------------------------------------------------------------ how many blocks an enqueue opens

  /** blockBaseDiff, which is counted down by BLOCK_SIZE for each block opened. */
  function BlockBaseDiff(cfg: Config, tail: nat, count: nat): nat
    requires cfg.Valid()
  {
    Wrap(cfg.Half(), BlockBase(cfg, tail + count - 1) - BlockBase(cfg, tail - 1))
  }

  /** The last index before `x` is in the block before the next one to open. */
  lemma BaseBefore(cfg: Config, x: nat)
    requires cfg.Valid()
    ensures BlockBase(cfg, x - 1) == Wrap(cfg.Half(), (NextBlock(cfg, x) - 1) * cfg.BlockSize())
  {
    hide Quot, Rem, Wrap;
    var B, n: int := cfg.BlockSize(), NextBlock(cfg, x);
    NextBlockBounds(cfg, x);
    assert (n - 1) * B == n * B - B;
    BaseIsBlock(cfg, x - 1, n - 1);
  }

  /** The count-down comes to the bytes of the blocks needed, modulo a turn. */
  lemma DiffIsBlocks(cfg: Config, tail: nat, items: seq<Item>)
    requires cfg.Valid()
    ensures BlockBaseDiff(cfg, tail, |items|) == Wrap(cfg.Half(), (Needed(cfg, tail, items) - NextBlock(cfg, tail)) * cfg.BlockSize())
  {
    hide Quot, Rem, Wrap, BlockBase;
    var B, half, n: int, x0: int := cfg.BlockSize(), cfg.Half(), Needed(cfg, tail, items), NextBlock(cfg, tail);
    BaseBefore(cfg, tail);
    BaseBefore(cfg, tail + |items|);
    WrapSum(half, (n - 1) * B, -BlockBase(cfg, tail - 1));
    WrapSub(half, (n - 1) * B, (x0 - 1) * B);
    assert (n - 1) * B - (x0 - 1) * B == (n - x0) * B;
  }

  /** At block `x` the count-down says to open another block exactly if the model does. */
  ghost predicate CountsRight(cfg: Config, tail: nat, items: seq<Item>, x: nat)
    requires cfg.Valid()
  {
    BlockBaseDiff(cfg, tail, |items|) - (x - NextBlock(cfg, tail)) * cfg.BlockSize() > 0 <==> x * cfg.BlockSize() < tail + |items|
  }

  /** The count-down opens as many blocks as are needed if and only if they span less than a
      turn: always, then, unless one call enqueues nearly as many items as there are
      indices. */
  lemma CountDownExact(cfg: Config, tail: nat, items: seq<Item>)
    requires cfg.Valid()
    ensures (forall x: nat :: NextBlock(cfg, tail) <= x <= Needed(cfg, tail, items) ==> CountsRight(cfg, tail, items, x))
            <==> (Needed(cfg, tail, items) - NextBlock(cfg, tail)) * cfg.BlockSize() < 2 * cfg.Half()
    ensures |items| + cfg.BlockSize() <= 2 * cfg.Half() ==> (Needed(cfg, tail, items) - NextBlock(cfg, tail)) * cfg.BlockSize() < 2 * cfg.Half()
  {
    hide Quot, Rem, BlockBase, Wrap;
    var B, half, n: nat, x0: nat := cfg.BlockSize(), cfg.Half(), Needed(cfg, tail, items), NextBlock(cfg, tail);
    NextBlockMonotone(cfg, tail, tail + |items|);
    DiffIsBlocks(cfg, tail, items);
    NextBlockBounds(cfg, tail);
    NextBlockBounds(cfg, tail + |items|);
    var span: int := (n - x0) * B;
    Distribute(n, -(x0 as int), B);
    assert (n - x0) * B >= 0;
    if span < 2 * half {
      WrapUnique(half, span, 0, span);
      forall x: nat | x0 <= x <= n ensures CountsRight(cfg, tail, items, x) {
        NeededTest(cfg, tail, items, x);
        Distribute(n - x, x - x0, B);
        if x < n { assert (n - x) * B > 0; }
      }
    } else {
      NotAtTheEnd(cfg, tail, items);
    }
  }

  /** Beyond a turn the count-down ends at least a block too early. */
  lemma NotAtTheEnd(cfg: Config, tail: nat, items: seq<Item>)
    requires cfg.Valid() && Needed(cfg, tail, items) >= NextBlock(cfg, tail)
    requires (Needed(cfg, tail, items) - NextBlock(cfg, tail)) * cfg.BlockSize() >= 2 * cfg.Half()
    ensures Needed(cfg, tail, items) - 1 >= NextBlock(cfg, tail) && !CountsRight(cfg, tail, items, Needed(cfg, tail, items) - 1)
  {
    hide Quot, Rem, BlockBase;
    var d: nat := Needed(cfg, tail, items) - NextBlock(cfg, tail);
    DiffIsBlocks(cfg, tail, items);
    BlockIndex.BaseWordScaled(cfg, d);
    BlockIndex.TurnOfBlocks(cfg);
    hide Wrap;
    TooEarly(d, cfg.Turn(), Rem(d, cfg.Turn()), cfg.BlockSize());
    NeededTest(cfg, tail, items, Needed(cfg, tail, items) - 1);
  }

  lemma TooEarly(d: nat, T: nat, r: nat, B: nat)
    requires d * B >= T * B && r < T && B > 0
    ensures d >= T && r * B - (d - 1) * B <= 0
  {
    if d < T {
      assert (T - d) * B == T * B - d * B;
      ProductPositive(T - d, B);
    }
    assert (d - 1 - r) * B == (d - 1) * B - r * B;
    assert (d - 1 - r) * B >= 0;
  }
}
