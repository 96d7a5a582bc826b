/** One implicit producer and its consumers: the tickets, the block index and the blocks
    together. `enqueue` is `enqueue_bulk` of one item: its accesses to shared memory are
    the same, in the same order, unless the element's constructor may throw. Plain accesses
    to a block's elements are one step each. */
module ProducerQueue {
  import opened Basics
  import opened Circular
  import Tickets
  import BlockIndex

  type BlockId = BlockIndex.BlockId
  type Config = BlockIndex.Config

  /** Elements are moved, never inspected. */
  type Item = int

  /** Raw storage, or a constructed element. */
  datatype Cell = Raw | Full(item: Item)

  /** `empties` is elementsCompletelyDequeued. */
  datatype Block = Block(empties: nat, cells: seq<Cell>)

  datatype Enqueuer =
    | Ready
    /** Blocks of `chain` are inserted; block `x` is next, if needed. */
    | Check(items: seq<Item>, x: nat, chain: seq<BlockId>)
    | Insert(items: seq<Item>, x: nat, chain: seq<BlockId>)
    | Clean(items: seq<Item>, x: nat, chain: seq<BlockId>, b: BlockId)
    | Store(items: seq<Item>, x: nat, chain: seq<BlockId>, b: BlockId)
    | Cancel(chain: seq<BlockId>)
    /** Blocks of `chain` from the `j`-th on are still to be taken out of the index. */
    | Undo(chain: seq<BlockId>, j: nat)
    | Rewind(chain: seq<BlockId>, j: nat)
    | GiveBack(chain: seq<BlockId>, j: nat)
    | Construct(items: seq<Item>, chain: seq<BlockId>, i: nat)
    | Publish(items: seq<Item>, chain: seq<BlockId>)

  /** A consumer after its claim of `first .. first + count`; elements before `pos` are moved out. */
  datatype Work =
    | Off
    | Looking(first: nat, count: nat, pos: nat, got: seq<Cell>)
    | Moving(first: nat, count: nat, pos: nat, got: seq<Cell>, b: BlockId, start: nat, end: nat)
    | Clearing(first: nat, count: nat, pos: nat, got: seq<Cell>, b: BlockId)
    | Giving(first: nat, count: nat, pos: nat, got: seq<Cell>, b: BlockId)
    | Done(first: nat, count: nat, pos: nat, got: seq<Cell>)
    /** A dereference of an entry or a block that is not there. */
    | Fault

  datatype State = State(tk: Tickets.State, ix: BlockIndex.State, blocks: map<BlockId, Block>,
                         tailBlock: BlockId, enq: Enqueuer, work: seq<Work>)

  datatype Action =
    // the producer thread
    | Enqueue(items: seq<Item>)
    | Produce(choice: Choice)
    // consumer threads
    | Dequeue(t: nat, max: nat)
    | Ticket(t: nat)
    | Consume(t: nat)
    | Return(t: nat)

  /** What an allocation or a requisition answers: nothing, or a block with stale contents. */
  datatype Choice = Fails | Gets(b: BlockId, stale: Block)

  function Initial(cfg: Config, memory: bool, threads: nat): State {
    State(Tickets.Initial(threads), BlockIndex.Initial(cfg, memory, threads), map[], 0, Ready, seq(threads, _ => Off))
  }

  predicate Shape(s: State) {
    BlockIndex.Shape(s.ix) && |s.tk.pcs| == |s.ix.readers| == |s.work|
  }

  /** The number of the block that starts at or after `tail`. */
  function NextBlock(cfg: Config, tail: nat): (x: nat)
  {
    Quot(tail + cfg.BlockSize() - 1, cfg.BlockSize())
  }

  predicate Enabled(cfg: Config, s: State, a: Action) {
    match a
    case Enqueue(_) => s.enq == Ready
    case Produce(choice) => ProduceEnabled(cfg, s, choice)
    case Dequeue(t, max) => Tickets.Enabled(s.tk, Tickets.Call(t, max)) && t < |s.work|
    case Ticket(t) => Tickets.Enabled(s.tk, Tickets.Run(t)) && t < |s.work|
                      && (s.tk.pcs[t].Take? ==> s.work[t] == Off && t < |s.ix.readers| && s.ix.readers[t] == BlockIndex.Off && s.ix.headers != [])
    case Consume(t) => t < |s.work| && t < |s.ix.readers| && ConsumeEnabled(s, t)
    case Return(t) => t < |s.work| && s.work[t].Done? && Tickets.Enabled(s.tk, Tickets.Finish(t))
  }

  /** A block obtained is one this producer does not hold (BlockSupply.GuardsHold); it has
      BLOCK_SIZE cells, with any contents. */
  predicate ProduceEnabled(cfg: Config, s: State, choice: Choice) {
    match s.enq
    case Ready => false
    case Check(_, _, _) => s.ix.writer == BlockIndex.Rest
    case Insert(_, _, _) =>
      if s.ix.writer.Inserted? then choice.Gets? ==> choice.b !in s.blocks && |choice.stale.cells| == cfg.BlockSize()
      else s.ix.writer.Refused? || BlockIndex.Enabled(s.ix, BlockIndex.Write(choice.Gets?))
    case Clean(_, _, _, b) => b in s.blocks
    case Store(_, _, _, _) => BlockIndex.Enabled(s.ix, BlockIndex.Fill(s.enq.b))
    case Cancel(_) => s.ix.writer.Drop?
    case Undo(chain, j) => j < |chain| ==> BlockIndex.Enabled(s.ix, BlockIndex.UndoNull(0))
    case Rewind(_, _) => s.ix.writer.Unwind?
    case GiveBack(_, _) => true
    case Construct(_, _, _) => true
    case Publish(_, _) => true
  }

  predicate ConsumeEnabled(s: State, t: nat)
    requires t < |s.work| && t < |s.ix.readers|
  {
    match s.work[t]
    case Looking(_, _, _, _) => s.ix.readers[t] != BlockIndex.Off
    case Moving(_, _, _, _, _, _, _) => s.ix.readers[t].Found?
    case Clearing(_, _, _, _, _) => s.ix.readers[t].Found?
    case Giving(_, _, _, _, _) => true
    case _ => false
  }

  function SetEnq(s: State, e: Enqueuer): State {
    s.(enq := e)
  }

  function SetWork(s: State, t: nat, w: Work): State
    requires t < |s.work|
  {
    s.(work := s.work[t := w])
  }

  function Apply(cfg: Config, s: State, a: Action): State
    requires cfg.Valid() && Shape(s) && Enabled(cfg, s, a)
  {
    match a
    case Enqueue(items) => SetEnq(s, Check(items, NextBlock(cfg, s.tk.tail), []))
    case Produce(choice) => Advance(cfg, s, choice)
    case Dequeue(t, max) => s.(tk := Tickets.Apply(cfg.Half(), s.tk, Tickets.Call(t, max)))
    case Ticket(t) =>
      var tk := Tickets.Apply(cfg.Half(), s.tk, Tickets.Run(t));
      if s.tk.pcs[t].Take? then
        SetWork(s.(tk := tk, ix := BlockIndex.Apply(cfg, s.ix, BlocksOf(cfg, t, s.tk.head, s.tk.pcs[t].take))),
                t, Looking(s.tk.head, s.tk.pcs[t].take, s.tk.head, []))
      else s.(tk := tk)
    case Consume(t) => ConsumeStep(cfg, s, t)
    case Return(t) => SetWork(s.(tk := Tickets.Apply(cfg.Half(), s.tk, Tickets.Finish(t))), t, Off)
  }

  function Max1(n: nat): nat {
    if n == 0 then 1 else n
  }

  /** The lookup of the blocks that hold elements `first .. first + count`. */
  function BlocksOf(cfg: Config, t: nat, first: nat, count: nat): BlockIndex.Action {
    BlockIndex.BeginLookup(t, Quot(first, cfg.BlockSize()), Quot(first + Max1(count) - 1, cfg.BlockSize()))
  }

  function Span(start: nat, end: nat): nat {
    if start <= end then end - start else 0
  }

  /** The producer thread. */
  function Advance(cfg: Config, s: State, choice: Choice): State
    requires cfg.Valid() && Shape(s) && ProduceEnabled(cfg, s, choice)
  {
    match s.enq
    case Check(items, x, chain) =>
      var B := cfg.BlockSize();
      if x * B >= s.tk.tail + |items| then SetEnq(s, Construct(items, chain, 0))
      else if !CircularLess(cfg.Half(), s.tk.head, x * B + B) then SetEnq(s, Undo(chain, 0))
      else SetEnq(s, Insert(items, x, chain)).(ix := BlockIndex.Apply(cfg, s.ix, BlockIndex.BeginInsert(x)))
    case Insert(items, x, chain) =>
      if s.ix.writer.Refused? then
        SetEnq(s, Undo(chain, 0)).(ix := BlockIndex.Apply(cfg, s.ix, BlockIndex.Return))
      else if s.ix.writer.Inserted? then
        (match choice
         case Gets(b, stale) => SetEnq(s, Clean(items, x, chain, b)).(blocks := s.blocks[b := stale])
         case Fails => SetEnq(s, Cancel(chain)).(ix := BlockIndex.Apply(cfg, s.ix, BlockIndex.Abandon)))
      else
        s.(ix := BlockIndex.Apply(cfg, s.ix, BlockIndex.Write(choice.Gets?)))
    case Clean(items, x, chain, b) =>
      SetEnq(s, Store(items, x, chain, b)).(blocks := s.blocks[b := s.blocks[b].(empties := 0)])
    case Store(items, x, chain, b) =>
      SetEnq(s, Check(items, x + 1, chain + [b])).(ix := BlockIndex.Apply(cfg, s.ix, BlockIndex.Fill(b)))
    case Cancel(chain) =>
      SetEnq(s, Undo(chain, 0)).(ix := BlockIndex.Apply(cfg, s.ix, BlockIndex.Write(true)))
    case Undo(chain, j) =>
      if j >= |chain| then SetEnq(s, GiveBack(chain, 0))
      else SetEnq(s, Rewind(chain, j)).(ix := BlockIndex.Apply(cfg, s.ix, BlockIndex.UndoNull(NextBlock(cfg, s.tk.tail) + j)))
    case Rewind(chain, j) =>
      SetEnq(s, Undo(chain, j + 1)).(ix := BlockIndex.Apply(cfg, s.ix, BlockIndex.Write(true)))
    case GiveBack(chain, j) =>
      if j >= |chain| then SetEnq(s, Ready)
      else SetEnq(s, GiveBack(chain, j + 1)).(blocks := s.blocks - {chain[j]})
    case Construct(items, chain, i) =>
      if i >= |items| then SetEnq(s, Publish(items, chain))
      else
        var index := s.tk.tail + i;
        var b := BlockFor(cfg, s, chain, index);
        SetEnq(s, Construct(items, chain, i + 1)).(blocks := PutCell(cfg, s.blocks, b, index, Full(items[i])))
    case Publish(items, chain) =>
      SetEnq(s, Ready).(tk := Tickets.Apply(cfg.Half(), s.tk, Tickets.Publish(|items|)),
                        tailBlock := if chain == [] then s.tailBlock else chain[|chain| - 1])
  }

  /** Where the producer constructs element `index`: in the block the tail is in, or in
      the one of the new blocks it falls in. */
  function BlockFor(cfg: Config, s: State, chain: seq<BlockId>, index: nat): BlockId {
    var x, x0 := Quot(index, cfg.BlockSize()), NextBlock(cfg, s.tk.tail);
    if x >= x0 && x - x0 < |chain| then chain[x - x0] else s.tailBlock
  }

  /** `(*block)[index]`: the low bits of the index select the cell. */
  function PutCell(cfg: Config, blocks: map<BlockId, Block>, b: BlockId, index: nat, c: Cell): map<BlockId, Block> {
    var at := Rem(index, cfg.BlockSize());
    if b in blocks && at < |blocks[b].cells| then blocks[b := blocks[b].(cells := blocks[b].cells[at := c])] else blocks
  }

  /** A consumer that has claimed its elements. */
  function ConsumeStep(cfg: Config, s: State, t: nat): State
    requires cfg.Valid() && Shape(s) && t < |s.work| && ConsumeEnabled(s, t)
  {
    var B := cfg.BlockSize();
    var r := s.ix.readers[t];
    match s.work[t]
    case Looking(first, count, pos, got) =>
      if !r.Found? then s.(ix := BlockIndex.Apply(cfg, s.ix, BlockIndex.Read(t)))
      else
        var value := s.ix.entries[s.ix.headers[r.h].index[r.idx]].value;
        SetWork(s, t, if value.Ptr? then Moving(first, count, pos, got, value.block, pos, Min(Quot(pos, B) * B + B, first + count)) else Fault)
    case Moving(first, count, pos, got, b, start, end) =>
      if b !in s.blocks || Rem(pos, B) >= |s.blocks[b].cells| then SetWork(s, t, Fault)
      else if pos < end then
        SetWork(s.(blocks := PutCell(cfg, s.blocks, b, pos, Raw)), t,
                Moving(first, count, pos + 1, got + [s.blocks[b].cells[Rem(pos, B)]], b, start, end))
      else
        // set_many_empty
        var empties := s.blocks[b].empties + Span(start, end);
        var s' := s.(blocks := s.blocks[b := s.blocks[b].(empties := empties)]);
        if empties == B then SetWork(s', t, Clearing(first, count, pos, got, b))
        else
          SetWork(s'.(ix := BlockIndex.Apply(cfg, s.ix, BlockIndex.Skip(t))), t, Next(first, count, pos, got))
    case Clearing(first, count, pos, got, b) =>
      SetWork(s.(ix := BlockIndex.Apply(cfg, s.ix, BlockIndex.Release(t))), t, Giving(first, count, pos, got, b))
    case Giving(first, count, pos, got, b) =>
      SetWork(s.(blocks := s.blocks - {b}), t, Next(first, count, pos, got))
  }

  /** On to the next block of the claim, or the end. */
  function Next(first: nat, count: nat, pos: nat, got: seq<Cell>): Work {
    if pos < first + count then Looking(first, count, pos, got) else Done(first, count, pos, got)
  }
}
