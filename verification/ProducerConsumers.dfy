/** The consumers' steps keep the invariant of ProducerInvariant. */
module ProducerConsumers {
  import opened Basics
  import opened Circular
  import opened ProducerQueue
  import opened ProducerInvariant
  import Tickets
  import BlockIndex

  /** `a` is a step of consumer `t` in its claim, or the call or ticket before it. */
  ghost function GhostAfter(cfg: Config, s: State, g: Ghost, a: Action): Ghost
    requires cfg.Valid() && Shape(s) && Enabled(cfg, s, a) && |g.m.bits| == |g.m.offs| == |g.m.tops| == |s.ix.headers|
  {
    match a
    case Ticket(t) => g.(log := Tickets.LogAfter(cfg.Half(), s.tk, g.log, Tickets.Run(t)))
    case Consume(t) =>
      (match s.work[t]
       case Moving(_, _, pos, _, _, start, end) => if pos < end then g else g.(done := g.done + Interval(start, end))
       case Clearing(_, _, _, _, _) => g.(m := BlockIndex.MapAfter(cfg, s.ix, g.m, BlockIndex.Release(t)))
       case _ => g)
    case _ => g
  }

  /** The numbers from `a` up to `b`. */
  ghost function Interval(a: nat, b: nat): (r: set<nat>)
    ensures forall i: nat :: i in r <==> a <= i < b
    ensures a <= b ==> |r| == b - a
    decreases b
  {
    if b <= a then {} else Interval(a, b - 1) + {b - 1}
  }

  lemma PlaceAt(cfg: Config, s: State, g: Ghost, t: nat)
    requires Claims(s.work, s.tk.pcs, g.stream) && Places(cfg.BlockSize(), s.work, s.ix.readers, g.m.live, g.done) && t < |s.work|
    ensures t < |s.tk.pcs| && t < |s.ix.readers|
    ensures ClaimInv(s.work[t], s.tk.pcs[t], g.stream) && PlaceInv(cfg.BlockSize(), s.work[t], s.ix.readers[t], g.m.live, g.done)
  {
  }

  // ------------------------------------------------------------------ calls and tickets

  /** Tickets change hands without touching claims, blocks or the published range. */
  lemma TicketsOnly(cfg: Config, s: State, g: Ghost, tk: Tickets.State, log: seq<Tickets.Verdict>, t: nat)
    requires Inv(cfg, s, g) && t < |s.tk.pcs| && !s.tk.pcs[t].Claimed?
    requires Tickets.Inv(tk, log) && tk.head == s.tk.head && tk.tail == s.tk.tail
    requires |tk.pcs| == |s.tk.pcs| && tk.pcs == s.tk.pcs[t := tk.pcs[t]] && !tk.pcs[t].Claimed?
    ensures Inv(cfg, s.(tk := tk), g.(log := log))
  {
    assert ClaimInv(s.work[t], s.tk.pcs[t], g.stream);
    forall u | 0 <= u < |s.work| ensures ClaimInv(s.work[u], tk.pcs[u], g.stream) {
      assert ClaimInv(s.work[u], s.tk.pcs[u], g.stream);
    }
  }

  lemma StepDequeue(cfg: Config, s: State, g: Ghost, t: nat, max: nat)
    requires Inv(cfg, s, g) && Shape(s) && Recent(cfg, s) && Enabled(cfg, s, Dequeue(t, max))
    ensures Inv(cfg, Apply(cfg, s, Dequeue(t, max)), g)
  {
    Tickets.StepInv(cfg.Half(), s.tk, g.log, Tickets.Call(t, max));
    TicketsOnly(cfg, s, g, Tickets.Apply(cfg.Half(), s.tk, Tickets.Call(t, max)), g.log, t);
  }

  lemma StepTicket(cfg: Config, s: State, g: Ghost, t: nat)
    requires Inv(cfg, s, g) && Shape(s) && Recent(cfg, s) && Enabled(cfg, s, Ticket(t)) && !s.tk.pcs[t].Take?
    ensures Inv(cfg, Apply(cfg, s, Ticket(t)), GhostAfter(cfg, s, g, Ticket(t)))
  {
    hide Quot, Rem, BlockIndex.Inv, Tickets.Inv, BlockIndex.Shape, BlockIndex.Apply, Claims, Places, Counts, Retired, DoneSet, Data, Owners, EnqInv;
    Tickets.StepInv(cfg.Half(), s.tk, g.log, Tickets.Run(t));
    TicketsOnly(cfg, s, g, Tickets.Apply(cfg.Half(), s.tk, Tickets.Run(t)), Tickets.LogAfter(cfg.Half(), s.tk, g.log, Tickets.Run(t)), t);
  }

  // ------------------------------------------------------------------ the claim

  /** All blocks from that of the head to that of the last published element claimed are in use. */
  lemma UnclaimedBlocksAreLive(cfg: Config, s: State, g: Ghost, i: nat)
    requires Inv(cfg, s, g) && s.tk.head <= i < s.tk.tail
    ensures Quot(i, cfg.BlockSize()) in g.m.live && Quot(i, cfg.BlockSize()) <= g.m.committed
  {
    BlockSizePositive(cfg);
    OwnBlock(cfg.BlockSize(), i);
    BeforeNextBlock(cfg, s.tk.tail, Quot(i, cfg.BlockSize()), i);
    assert i !in g.done;
  }

  /** A block between those of two unclaimed elements is in use. */
  lemma BlockBetween(cfg: Config, s: State, g: Ghost, lo: nat, hi: nat, i: nat, j: nat, k: nat)
    requires Inv(cfg, s, g) && s.tk.head <= i <= j < s.tk.tail && lo <= k <= hi
    requires InBlock(cfg.BlockSize(), lo, i) && InBlock(cfg.BlockSize(), hi, j)
    ensures k in g.m.live && k <= g.m.committed
  {
    BlockSizePositive(cfg);
    var B := cfg.BlockSize();
    if k == lo {
      BlockIs(B, k, i);
      UnclaimedBlocksAreLive(cfg, s, g, i);
    } else if k == hi {
      BlockIs(B, k, j);
      UnclaimedBlocksAreLive(cfg, s, g, j);
    } else {
      BlocksApart(B, lo, k);
      BlocksApart(B, k, hi);
      BlockIs(B, k, k * B);
      UnclaimedBlocksAreLive(cfg, s, g, k * B);
    }
  }

  lemma ClaimPins(cfg: Config, s: State, g: Ghost, lo: nat, hi: nat, first: nat, last: nat)
    requires Inv(cfg, s, g) && s.tk.head <= first <= last < s.tk.tail
    requires InBlock(cfg.BlockSize(), lo, first) && InBlock(cfg.BlockSize(), hi, last)
    ensures BlockIndex.Pinned(g.m, lo, hi)
  {
    BlocksOrdered(cfg.BlockSize(), lo, hi, first, last);
    BlockBetween(cfg, s, g, lo, hi, first, last, hi);
    forall k | lo <= k <= hi ensures k in g.m.live {
      BlockBetween(cfg, s, g, lo, hi, first, last, k);
    }
  }

  /** The head's fetch_add hands the next elements to one consumer: they are published,
      stored, not done, and in blocks that are all in use. */
  lemma StepTake(cfg: Config, s: State, g: Ghost, t: nat)
    requires Inv(cfg, s, g) && Shape(s) && Recent(cfg, s) && Enabled(cfg, s, Ticket(t)) && s.tk.pcs[t].Take?
    ensures Inv(cfg, Apply(cfg, s, Ticket(t)), GhostAfter(cfg, s, g, Ticket(t)))
  {
    hide Quot, Rem, BlockIndex.Inv, Tickets.Inv, BlockIndex.Shape, LooksUp, Claims, Counts, Retired, DoneSet, Data, Owners, EnqInv;
    var first, count := s.tk.head, s.tk.pcs[t].take;
    TakeTickets(cfg, s, g, t);
    TakeBlocks(cfg, s, g, t, first, count);
    var lookup := BlocksOf(cfg, t, first, count);
    TookInv(cfg, s, g, t, Tickets.Apply(cfg.Half(), s.tk, Tickets.Run(t)),
            Tickets.LogAfter(cfg.Half(), s.tk, g.log, Tickets.Run(t)), lookup.lo, lookup.hi);
  }

  lemma TakeTickets(cfg: Config, s: State, g: Ghost, t: nat)
    requires Base(cfg, s, g) && Recent(cfg, s) && t < |s.tk.pcs| && s.tk.pcs[t].Take?
    ensures var count := s.tk.pcs[t].take;
            && count > 0 && s.tk.head + count <= s.tk.tail && Tickets.Enabled(s.tk, Tickets.Run(t))
            && var tk := Tickets.Apply(cfg.Half(), s.tk, Tickets.Run(t));
            && tk == s.tk.(head := s.tk.head + count, pcs := s.tk.pcs[t := Tickets.Claimed(s.tk.head, count)])
            && Tickets.Inv(tk, Tickets.LogAfter(cfg.Half(), s.tk, g.log, Tickets.Run(t)))
  {
    Tickets.StepInv(cfg.Half(), s.tk, g.log, Tickets.Run(t));
    Tickets.HeadNeverPassesTail(Tickets.Apply(cfg.Half(), s.tk, Tickets.Run(t)), Tickets.LogAfter(cfg.Half(), s.tk, g.log, Tickets.Run(t)));
    assert Tickets.PcInv(s.tk, g.log, s.tk.pcs[t]);
  }

  lemma TakeBlocks(cfg: Config, s: State, g: Ghost, t: nat, first: nat, count: nat)
    requires Inv(cfg, s, g) && t < |s.ix.readers| && s.ix.readers[t].Off? && s.ix.headers != []
    requires s.tk.head == first && count > 0 && first + count <= s.tk.tail
    ensures var lookup := BlocksOf(cfg, t, first, count);
            && LooksUp(cfg.BlockSize(), BlockIndex.LoadHeader(lookup.lo, lookup.hi), first, first + count)
            && BlockIndex.Inv(cfg, BlockIndex.SetReader(s.ix, t, BlockIndex.LoadHeader(lookup.lo, lookup.hi)), g.m)
  {
    BlockSizePositive(cfg);
    var lookup := BlocksOf(cfg, t, first, count);
    OwnBlock(cfg.BlockSize(), first);
    OwnBlock(cfg.BlockSize(), first + count - 1);
    ClaimPins(cfg, s, g, lookup.lo, lookup.hi, first, first + count - 1);
    BlockIndex.StepInv(cfg, s.ix, g.m, lookup);
  }

  lemma TookInv(cfg: Config, s: State, g: Ghost, t: nat, tk: Tickets.State, log: seq<Tickets.Verdict>, lo: nat, hi: nat)
    requires Inv(cfg, s, g) && t < |s.work| && s.work[t].Off? && s.tk.pcs[t].Take? && s.tk.pcs[t].take > 0
    requires var first, count := s.tk.head, s.tk.pcs[t].take;
             && first + count <= s.tk.tail
             && tk == s.tk.(head := first + count, pcs := s.tk.pcs[t := Tickets.Claimed(first, count)])
             && LooksUp(cfg.BlockSize(), BlockIndex.LoadHeader(lo, hi), first, first + count)
    requires Tickets.Inv(tk, log)
    requires BlockIndex.Inv(cfg, BlockIndex.SetReader(s.ix, t, BlockIndex.LoadHeader(lo, hi)), g.m)
    ensures Inv(cfg, SetWork(s.(tk := tk, ix := BlockIndex.SetReader(s.ix, t, BlockIndex.LoadHeader(lo, hi))), t,
                             Looking(s.tk.head, s.tk.pcs[t].take, s.tk.head, [])), g.(log := log))
  {
    var ix := BlockIndex.SetReader(s.ix, t, BlockIndex.LoadHeader(lo, hi));
    var work := s.work[t := Looking(s.tk.head, s.tk.pcs[t].take, s.tk.head, [])];
    forall u | 0 <= u < |s.work| ensures ClaimInv(work[u], tk.pcs[u], g.stream) {
      assert ClaimInv(s.work[u], s.tk.pcs[u], g.stream);
    }
    PlacesUpdate(cfg.BlockSize(), s.work, s.ix.readers, work, ix.readers, g.m.live, g.done, t);
    TakeKeepsSets(cfg, s, g, t, ix.readers);
  }

  /** One consumer moves. */
  lemma PlacesUpdate(B: nat, work: seq<Work>, readers: seq<BlockIndex.Reader>, work': seq<Work>, readers': seq<BlockIndex.Reader>, live: Live, done: set<nat>, t: nat)
    requires Places(B, work, readers, live, done) && t < |work| == |work'| == |readers'|
    requires forall u :: 0 <= u < |work| && u != t ==> work'[u] == work[u] && readers'[u] == readers[u]
    requires PlaceInv(B, work'[t], readers'[t], live, done)
    ensures Places(B, work', readers', live, done)
  {
    forall u | 0 <= u < |work| ensures PlaceInv(B, work'[u], readers'[u], live, done) {
      assert u != t ==> PlaceInv(B, work[u], readers[u], live, done);
    }
  }

  lemma TakeKeepsSets(cfg: Config, s: State, g: Ghost, t: nat, readers: seq<BlockIndex.Reader>)
    requires Inv(cfg, s, g) && t < |s.work| && s.work[t].Off? && s.tk.pcs[t].Take?
    requires s.tk.head + s.tk.pcs[t].take <= s.tk.tail
    requires |readers| == |s.ix.readers| && forall u :: 0 <= u < |readers| && u != t ==> readers[u] == s.ix.readers[u]
    ensures var B, first, count := cfg.BlockSize(), s.tk.head, s.tk.pcs[t].take;
            var work := s.work[t := Looking(first, count, first, [])];
            && Retired(B, work, readers, g.m.live, g.m.committed, g.done)
            && DoneSet(work, first + count, g.done)
            && Data(B, s.blocks, work, first + count, g.m.live, g.stream)
            && Owners(s.blocks, work, s.enq, g.m.live)
  {
    var B, first, count := cfg.BlockSize(), s.tk.head, s.tk.pcs[t].take;
    var work := s.work[t := Looking(first, count, first, [])];
    ClearingUnmoved(s.work, s.ix.readers, work, readers, t);
    GivingUnmoved(s.work, work, t);
    forall i: nat | i < first + count && i !in g.done ensures HeldBySome(work, i) {
      if i < first {
        assert HeldBySome(s.work, i);
        var u :| 0 <= u < |s.work| && Holds(s.work[u], i);
        assert Holds(work[u], i);
      } else {
        assert Holds(work[t], i);
      }
    }
    forall u, i: nat | 0 <= u < |work| && Unmoved(work[u], i) ensures Stored(B, s.blocks, g.m.live, g.stream, i) {
      if u != t { assert Unmoved(s.work[u], i); }
    }
    forall u, i: nat | 0 <= u < |work| && Holds(work[u], i) ensures i !in g.done {
      if u != t { assert Holds(s.work[u], i); }
    }
  }

  /** A consumer that neither was nor is clearing an entry does not matter to who clears what. */
  lemma ClearingUnmoved(work: seq<Work>, readers: seq<BlockIndex.Reader>, work': seq<Work>, readers': seq<BlockIndex.Reader>, t: nat)
    requires |work| == |readers| == |work'| == |readers'| && t < |work|
    requires forall u :: 0 <= u < |work| && u != t ==> work'[u] == work[u] && readers'[u] == readers[u]
    requires !work[t].Clearing?
    ensures forall k :: ClearedBySome(work, readers, k) ==> ClearedBySome(work', readers', k)
    ensures ClearedOnce(work, readers) && !work'[t].Clearing? ==> ClearedOnce(work', readers')
  {
    forall k | ClearedBySome(work, readers, k) ensures ClearedBySome(work', readers', k) {
      var u :| 0 <= u < |work| && work[u].Clearing? && readers[u].Found? && readers[u].lo == k;
      assert work'[u].Clearing?;
    }
  }

  /** A consumer that neither was nor is giving a block back does not matter to who gives what. */
  lemma GivingUnmoved(work: seq<Work>, work': seq<Work>, t: nat)
    requires |work| == |work'| && t < |work| && !work[t].Giving? && !work'[t].Giving?
    requires forall u :: 0 <= u < |work| && u != t ==> work'[u] == work[u]
    ensures forall b :: GivenBySome(work, b) <==> GivenBySome(work', b)
    ensures GivenOnce(work) ==> GivenOnce(work')
  {
    forall b ensures GivenBySome(work, b) <==> GivenBySome(work', b) {
      if GivenBySome(work, b) {
        var u :| 0 <= u < |work| && work[u].Giving? && work[u].b == b;
        assert work'[u].Giving?;
      }
      if GivenBySome(work', b) {
        var u :| 0 <= u < |work'| && work'[u].Giving? && work'[u].b == b;
        assert work[u].Giving?;
      }
    }
  }

  // ------------------------------------------------------------------ the claim at work

  /** A consumer moves on without changing what it holds: only its own place is new. */
  lemma WorkMoves(cfg: Config, s: State, g: Ghost, t: nat, w: Work, ix: BlockIndex.State, tk: Tickets.State)
    requires Inv(cfg, s, g) && t < |s.work|
    requires BlockIndex.Inv(cfg, ix, g.m) && ix.writer == s.ix.writer && |ix.readers| == |s.ix.readers|
    requires forall u :: 0 <= u < |ix.readers| && u != t ==> ix.readers[u] == s.ix.readers[u]
    requires Tickets.Inv(tk, g.log) && tk.head == s.tk.head && tk.tail == s.tk.tail && |tk.pcs| == |s.tk.pcs|
    requires forall u :: 0 <= u < |tk.pcs| && u != t ==> tk.pcs[u] == s.tk.pcs[u]
    requires !s.work[t].Clearing? && !s.work[t].Giving? && !w.Clearing? && !w.Giving?
    requires ClaimInv(w, tk.pcs[t], g.stream) && PlaceInv(cfg.BlockSize(), w, ix.readers[t], g.m.live, g.done)
    requires forall i :: Holds(w, i) <==> Holds(s.work[t], i)
    requires forall i :: Unmoved(w, i) ==> Unmoved(s.work[t], i)
    ensures Inv(cfg, s.(work := s.work[t := w], ix := ix, tk := tk), g)
  {
    hide Quot, Rem, BlockIndex.Inv, Tickets.Inv, Counts, Retired, DoneSet, Data, Owners, EnqInv;
    var work := s.work[t := w];
    forall u | 0 <= u < |work| ensures ClaimInv(work[u], tk.pcs[u], g.stream) {
      assert ClaimInv(s.work[u], s.tk.pcs[u], g.stream);
    }
    PlacesUpdate(cfg.BlockSize(), s.work, s.ix.readers, work, ix.readers, g.m.live, g.done, t);
    SetsKept(cfg.BlockSize(), s, g, work, ix.readers, t);
  }

  /** Who clears, holds, reads and gives what does not change when a consumer moves on. */
  lemma SetsKept(B: nat, s: State, g: Ghost, work: seq<Work>, readers: seq<BlockIndex.Reader>, t: nat)
    requires Retired(B, s.work, s.ix.readers, g.m.live, g.m.committed, g.done)
    requires DoneSet(s.work, s.tk.head, g.done)
    requires Data(B, s.blocks, s.work, s.tk.head, g.m.live, g.stream)
    requires Owners(s.blocks, s.work, s.enq, g.m.live)
    requires t < |s.work| == |s.ix.readers| == |work| == |readers|
    requires forall u :: 0 <= u < |work| && u != t ==> work[u] == s.work[u] && readers[u] == s.ix.readers[u]
    requires !s.work[t].Clearing? && !s.work[t].Giving? && !work[t].Clearing? && !work[t].Giving?
    requires forall i :: Holds(work[t], i) <==> Holds(s.work[t], i)
    requires forall i :: Unmoved(work[t], i) ==> Unmoved(s.work[t], i)
    ensures Retired(B, work, readers, g.m.live, g.m.committed, g.done)
    ensures DoneSet(work, s.tk.head, g.done)
    ensures Data(B, s.blocks, work, s.tk.head, g.m.live, g.stream)
    ensures Owners(s.blocks, work, s.enq, g.m.live)
  {
    ClearingUnmoved(s.work, s.ix.readers, work, readers, t);
    GivingUnmoved(s.work, work, t);
    HoldingUnmoved(s.work, work, t, s.tk.head, g.done);
    forall u, i: nat | 0 <= u < |work| && Unmoved(work[u], i)
      ensures Stored(B, s.blocks, g.m.live, g.stream, i)
    {
      assert Unmoved(s.work[u], i);
    }
  }

  lemma HoldingUnmoved(work: seq<Work>, work': seq<Work>, t: nat, head: nat, done: set<nat>)
    requires DoneSet(work, head, done) && t < |work| == |work'|
    requires forall u :: 0 <= u < |work| && u != t ==> work'[u] == work[u]
    requires forall i :: Holds(work'[t], i) <==> Holds(work[t], i)
    ensures DoneSet(work', head, done)
  {
    forall u, i: nat | 0 <= u < |work'| && Holds(work'[u], i) ensures i !in done {
      assert Holds(work[u], i);
    }
    forall i: nat | i < head && i !in done ensures HeldBySome(work', i) {
      assert HeldBySome(work, i);
      var u :| 0 <= u < |work| && Holds(work[u], i);
      assert Holds(work'[u], i);
    }
  }

  /** The caller receives its elements. */
  lemma StepReturn(cfg: Config, s: State, g: Ghost, t: nat)
    requires Inv(cfg, s, g) && Shape(s) && Recent(cfg, s) && Enabled(cfg, s, Return(t))
    ensures Inv(cfg, Apply(cfg, s, Return(t)), g)
  {
    hide Quot, Rem, BlockIndex.Inv, Tickets.Inv, BlockIndex.Shape, BlockIndex.Apply, Claims, Counts, Retired, DoneSet, Data, Owners, EnqInv;
    Tickets.StepInv(cfg.Half(), s.tk, g.log, Tickets.Finish(t));
    assert PlaceInv(cfg.BlockSize(), s.work[t], s.ix.readers[t], g.m.live, g.done);
    WorkMoves(cfg, s, g, t, Off, s.ix, Tickets.Apply(cfg.Half(), s.tk, Tickets.Finish(t)));
  }

  /** A load changes the consumer's place in its lookup only. */
  lemma ReadResult(cfg: Config, ix: BlockIndex.State, t: nat)
    requires cfg.Valid() && BlockIndex.Shape(ix) && BlockIndex.Enabled(ix, BlockIndex.Read(t))
    ensures var ix' := BlockIndex.Apply(cfg, ix, BlockIndex.Read(t));
            && ix'.writer == ix.writer && ix' == BlockIndex.SetReader(ix, t, ix'.readers[t])
            && !ix'.readers[t].Off? && ix'.readers[t].lo == ix.readers[t].lo && ix'.readers[t].hi == ix.readers[t].hi
  {
    hide Quot, Rem;
  }

  /** One load of a lookup. */
  lemma StepRead(cfg: Config, s: State, g: Ghost, t: nat)
    requires Inv(cfg, s, g) && Shape(s) && Enabled(cfg, s, Consume(t)) && s.work[t].Looking? && !s.ix.readers[t].Found?
    ensures Inv(cfg, Apply(cfg, s, Consume(t)), g)
  {
    hide Quot, Rem, BlockIndex.Inv, Tickets.Inv, BlockIndex.Shape, BlockIndex.Apply, Claims, Places, Counts, Retired, DoneSet, Data, Owners, EnqInv, ClaimInv;
    PlaceAt(cfg, s, g, t);
    BlockIndex.StepInv(cfg, s.ix, g.m, BlockIndex.Read(t));
    ReadResult(cfg, s.ix, t);
    var ix := BlockIndex.Apply(cfg, s.ix, BlockIndex.Read(t));
    WorkMoves(cfg, s, g, t, s.work[t], ix, s.tk);
    assert s.work[t := s.work[t]] == s.work;
  }

  /** The entry found holds the block of the elements claimed. */
  lemma BlockFound(cfg: Config, s: State, g: Ghost, t: nat)
    requires Inv(cfg, s, g) && t < |s.work| && s.work[t].Looking? && s.ix.readers[t].Found?
    ensures var B, w, r := cfg.BlockSize(), s.work[t], s.ix.readers[t];
            && r.h < |s.ix.headers| && r.idx < |s.ix.headers[r.h].index| && r.lo in g.m.live
            && var e := s.ix.headers[r.h].index[r.idx];
            && e < |s.ix.entries| && s.ix.entries[e].value == BlockIndex.Ptr(g.m.live[r.lo])
            && LooksUp(B, r, w.pos, w.first + w.count)
            && B > 0 && Quot(w.pos, B) == r.lo
  {
    var B, w, r := cfg.BlockSize(), s.work[t], s.ix.readers[t];
    BlockSizePositive(cfg);
    BlockIndex.FoundEntry(cfg, s.ix, g.m, t);
    assert PlaceInv(B, w, r, g.m.live, g.done);
    BlockIs(B, r.lo, w.pos);
  }

  function Loaded(B: nat, w: Work, b: BlockId): Work
    requires w.Looking? && B > 0
  {
    Moving(w.first, w.count, w.pos, w.got, b, w.pos, Min(Quot(w.pos, B) * B + B, w.first + w.count))
  }

  lemma LoadBlockResult(cfg: Config, s: State, t: nat, b: BlockId, e: nat)
    requires cfg.Valid() && Shape(s) && Enabled(cfg, s, Consume(t)) && s.work[t].Looking? && s.ix.readers[t].Found?
    requires e < |s.ix.entries| && s.ix.entries[e].value == BlockIndex.Ptr(b)
    requires s.ix.headers[s.ix.readers[t].h].index[s.ix.readers[t].idx] == e
    ensures Apply(cfg, s, Consume(t)) == SetWork(s, t, Loaded(cfg.BlockSize(), s.work[t], b))
  {
  }

  lemma LoadedPlace(B: nat, w: Work, r: BlockIndex.Reader, pc: Tickets.Pc, live: Live, stream: seq<Item>, done: set<nat>)
    requires B > 0 && w.Looking? && r.Found? && r.lo in live && Quot(w.pos, B) == r.lo
    requires ClaimInv(w, pc, stream) && PlaceInv(B, w, r, live, done)
    ensures ClaimInv(Loaded(B, w, live[r.lo]), pc, stream) && PlaceInv(B, Loaded(B, w, live[r.lo]), r, live, done)
    ensures forall i :: Holds(Loaded(B, w, live[r.lo]), i) <==> Holds(w, i)
    ensures forall i :: Unmoved(Loaded(B, w, live[r.lo]), i) ==> Unmoved(w, i)
  {
    hide Quot, Rem;
  }

  lemma LoadedInv(cfg: Config, s: State, g: Ghost, t: nat)
    requires Inv(cfg, s, g) && t < |s.work| && s.work[t].Looking? && s.ix.readers[t].Found? && s.ix.readers[t].lo in g.m.live
    requires cfg.BlockSize() > 0 && Quot(s.work[t].pos, cfg.BlockSize()) == s.ix.readers[t].lo
    ensures Inv(cfg, SetWork(s, t, Loaded(cfg.BlockSize(), s.work[t], g.m.live[s.ix.readers[t].lo])), g)
  {
    hide Rem, Quot, BlockIndex.Inv, Tickets.Inv, Claims, Places, Counts, Retired, DoneSet, Data, Owners, EnqInv, ClaimInv, PlaceInv, Holds, Unmoved;
    var B, w, r := cfg.BlockSize(), s.work[t], s.ix.readers[t];
    PlaceAt(cfg, s, g, t);
    LoadedPlace(B, w, r, s.tk.pcs[t], g.m.live, g.stream, g.done);
    WorkMoves(cfg, s, g, t, Loaded(B, w, g.m.live[r.lo]), s.ix, s.tk);
  }

  lemma StepLoadBlock(cfg: Config, s: State, g: Ghost, t: nat)
    requires Inv(cfg, s, g) && Shape(s) && Enabled(cfg, s, Consume(t)) && s.work[t].Looking? && s.ix.readers[t].Found?
    ensures Inv(cfg, Apply(cfg, s, Consume(t)), g)
  {
    var r := s.ix.readers[t];
    BlockFound(cfg, s, g, t);
    LoadBlockResult(cfg, s, t, g.m.live[r.lo], s.ix.headers[r.h].index[r.idx]);
    LoadedInv(cfg, s, g, t);
  }
}
