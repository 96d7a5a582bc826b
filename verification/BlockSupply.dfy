/** Producers and the pool they share: a block handed out by the pool goes to the producer
    that asked for it, and comes back when that producer, or one of its consumers, is
    through with it. */
module BlockSupply {
  import FreeList
  import BlockPool
  import opened ProducerQueue
  import BlockIndex
  import opened Circular
  import Tickets

  datatype System = System(pool: BlockPool.State, producers: seq<ProducerQueue.State>)

  datatype Action =
    /** A step inside the pool that hands nothing out. */
    | Inside(step: BlockPool.Action)
    /** A step of producer `i` or its consumers that neither obtains nor returns a block. */
    | Work(i: nat, act: ProducerQueue.Action)
    /** The requisition of producer `i` returns block `b`. */
    | Obtain(step: BlockPool.Action, i: nat, b: BlockId, stale: Block)
    /** Thread `t` starts to add block `b`, which a step of producer `i` gives up. */
    | GiveUp(t: nat, i: nat, act: ProducerQueue.Action, b: BlockId)

  /** Producer `s` waits for the answer of requisition_block. */
  predicate Waiting(s: ProducerQueue.State) {
    s.enq.Insert? && s.ix.writer.Inserted?
  }

  ghost predicate Next(cfg: Config, s: System, a: Action, s': System)
    requires cfg.Valid()
  {
    && BlockPool.Shape(s.pool)
    && |s'.producers| == |s.producers|
    && (match a
        case Inside(step) =>
          && !step.Release? && BlockPool.Enabled(s.pool, step) && BlockPool.Obtained(s.pool, step) == {}
          && s' == s.(pool := BlockPool.Apply(s.pool, step))
        case Work(i, act) =>
          && i < |s.producers| && Shape(s.producers[i]) && Enabled(cfg, s.producers[i], act)
          && s' == s.(producers := s.producers[i := Apply(cfg, s.producers[i], act)])
          && s'.producers[i].blocks.Keys == s.producers[i].blocks.Keys
        case Obtain(step, i, b, stale) =>
          && BlockPool.Enabled(s.pool, step) && b in BlockPool.Obtained(s.pool, step)
          && i < |s.producers| && Shape(s.producers[i]) && Waiting(s.producers[i]) && Enabled(cfg, s.producers[i], Produce(Gets(b, stale)))
          && s' == System(BlockPool.Apply(s.pool, step), s.producers[i := Apply(cfg, s.producers[i], Produce(Gets(b, stale)))])
        case GiveUp(t, i, act, b) =>
          && i < |s.producers| && Shape(s.producers[i]) && Enabled(cfg, s.producers[i], act)
          && GivesUp(s.producers[i], Apply(cfg, s.producers[i], act), b)
          && BlockPool.Enabled(s.pool, BlockPool.Release(t, b))
          && s' == System(BlockPool.Apply(s.pool, BlockPool.Release(t, b)), s.producers[i := Apply(cfg, s.producers[i], act)]))
  }

  /** The step from `p` to `q` returns block `b`. */
  ghost predicate GivesUp(p: ProducerQueue.State, q: ProducerQueue.State, b: BlockId) {
    b in p.blocks && q.blocks.Keys == p.blocks.Keys - {b}
  }

  /** What a producer holds the pool has handed out, to this producer only. */
  ghost predicate Shares(s: System) {
    && (forall i :: 0 <= i < |s.producers| ==> s.producers[i].blocks.Keys <= s.pool.held)
    && (forall i, j :: 0 <= i < j < |s.producers| ==> s.producers[i].blocks.Keys !! s.producers[j].blocks.Keys)
  }

  /** The guards that producers and pool put on each other always hold: a block handed out
      is new to the producer it goes to, and a block returned is one the pool expects. */
  lemma GuardsHold(cfg: Config, s: System, chain: seq<BlockPool.Node>, i: nat)
    requires cfg.Valid() && Shares(s) && BlockPool.Inv(s.pool, chain) && i < |s.producers|
    ensures forall step, b, stale: Block ::
              BlockPool.Enabled(s.pool, step) && b in BlockPool.Obtained(s.pool, step) && Waiting(s.producers[i]) && |stale.cells| == cfg.BlockSize()
              ==> Enabled(cfg, s.producers[i], Produce(Gets(b, stale)))
    ensures forall t: nat, b <- s.producers[i].blocks :: t < |s.pool.places| && s.pool.places[t].Out? ==> BlockPool.Enabled(s.pool, BlockPool.Release(t, b))
  {
    hide FreeList.Inv, BlockPool.Apply, FreeList.Shape, BlockPool.InPool;
    forall t: nat, b <- s.producers[i].blocks | t < |s.pool.places| && s.pool.places[t].Out?
      ensures BlockPool.Enabled(s.pool, BlockPool.Release(t, b))
    {
      assert b in s.pool.held && BlockPool.InCall(s.pool.fl.pcs[t], s.pool.places[t]);
    }
  }

  /** What a step of the pool does to the blocks handed out. */
  lemma HeldAfter(pool: BlockPool.State, step: BlockPool.Action)
    requires BlockPool.Shape(pool) && BlockPool.Enabled(pool, step)
    ensures !step.Release? ==> pool.held <= BlockPool.Apply(pool, step).held
    ensures step.Release? ==> BlockPool.Apply(pool, step).held == pool.held - {step.b}
  {
    hide FreeList.Apply, FreeList.Shape, FreeList.Observe;
  }

  lemma ObtainedBlocks(cfg: Config, p: ProducerQueue.State, b: BlockId, stale: Block)
    requires cfg.Valid() && Shape(p) && Waiting(p) && Enabled(cfg, p, Produce(Gets(b, stale)))
    ensures Apply(cfg, p, Produce(Gets(b, stale))).blocks.Keys == p.blocks.Keys + {b}
  {
    hide BlockIndex.Shape, BlockIndex.Apply;
  }

  /** No step of a producer is left out: each obtains the block that is handed to it, or
      gives up one block, or keeps those it has. */
  lemma StepKinds(cfg: Config, p: ProducerQueue.State, act: ProducerQueue.Action)
    requires cfg.Valid() && Shape(p) && Enabled(cfg, p, act)
    ensures var q := Apply(cfg, p, act);
            || q.blocks.Keys == p.blocks.Keys
            || (act.Produce? && act.choice.Gets? && Waiting(p) && q.blocks.Keys == p.blocks.Keys + {act.choice.b})
            || exists b :: GivesUp(p, q, b)
  {
    hide BlockIndex.Shape, BlockIndex.Apply, Tickets.Apply, Quot, Rem, CircularLess;
    var q := Apply(cfg, p, act);
    if act.Produce? && p.enq.GiveBack? && p.enq.j < |p.enq.chain| {
      assert p.enq.chain[p.enq.j] in p.blocks ==> GivesUp(p, q, p.enq.chain[p.enq.j]);
    }
    if act.Consume? && p.work[act.t].Giving? {
      assert p.work[act.t].b in p.blocks ==> GivesUp(p, q, p.work[act.t].b);
    }
  }

  lemma StepShares(cfg: Config, s: System, a: Action, s': System, chain: seq<BlockPool.Node>) returns (chain': seq<BlockPool.Node>)
    requires cfg.Valid() && Shares(s) && BlockPool.Inv(s.pool, chain) && Next(cfg, s, a, s')
    ensures Shares(s') && BlockPool.Inv(s'.pool, chain')
  {
    hide BlockPool.Inv, BlockPool.Apply, BlockPool.Enabled, BlockPool.Shape, Apply, Enabled, Shape;
    chain' := chain;
    match a
    case Inside(step) => HeldAfter(s.pool, step); chain' := BlockPool.StepInv(s.pool, chain, step);
    case Work(_, _) =>
    case Obtain(step, i, b, stale) =>
      HeldAfter(s.pool, step);
      chain' := BlockPool.StepInv(s.pool, chain, step);
      ObtainedBlocks(cfg, s.producers[i], b, stale);
    case GiveUp(t, i, act, b) =>
      HeldAfter(s.pool, BlockPool.Release(t, b));
      chain' := BlockPool.StepInv(s.pool, chain, BlockPool.Release(t, b));
  }

  // ------------------------------------------------------------------ runs

  /** Pool and producers as they are made; producers all exist from the start. */
  ghost predicate IsStart(cfg: Config, s: System) {
    && (exists threads: nat, size: nat, ok :: threads < FreeList.FLAG - 1 && s.pool == BlockPool.Initial(threads, size, ok))
    && (forall i :: 0 <= i < |s.producers| ==> exists memory, threads: nat :: s.producers[i] == Initial(cfg, memory, threads))
  }

  ghost predicate IsRun(cfg: Config, states: seq<System>, actions: seq<Action>)
    requires cfg.Valid()
  {
    && |states| == |actions| + 1 && IsStart(cfg, states[0])
    && (forall i :: 0 <= i < |actions| ==> Next(cfg, states[i], actions[i], states[i + 1]))
  }

  lemma {:induction false} RunShares(cfg: Config, states: seq<System>, actions: seq<Action>, i: nat) returns (chain: seq<BlockPool.Node>)
    requires cfg.Valid() && IsRun(cfg, states, actions) && i < |states|
    ensures Shares(states[i]) && BlockPool.Inv(states[i].pool, chain)
  {
    hide BlockPool.Inv, Next, BlockIndex.Initial, Tickets.Initial;
    if i == 0 {
      var threads: nat, size: nat, ok :| threads < FreeList.FLAG - 1 && states[0].pool == BlockPool.Initial(threads, size, ok);
      BlockPool.InitialInv(threads, size, ok);
      chain := [];
    } else {
      var before := RunShares(cfg, states, actions, i - 1);
      chain := StepShares(cfg, states[i - 1], actions[i - 1], states[i], before);
    }
  }

  /** In every run a block that a producer holds is held by no other producer, and is
      neither in the initial pool, nor on the free list, nor on its way there. */
  lemma OneHolderPerBlock(cfg: Config, states: seq<System>, actions: seq<Action>, k: nat, i: nat, b: BlockId) returns (chain: seq<BlockPool.Node>)
    requires cfg.Valid() && IsRun(cfg, states, actions) && k < |states|
    requires i < |states[k].producers| && b in states[k].producers[i].blocks
    ensures forall j :: 0 <= j < |states[k].producers| && j != i ==> b !in states[k].producers[j].blocks
    ensures BlockPool.Inv(states[k].pool, chain) && b < |states[k].pool.fl.refs|
    ensures !BlockPool.InPool(states[k].pool, b) && b !in chain && !BlockPool.InTransit(states[k].pool, b)
  {
    hide Next, IsStart;
    chain := RunShares(cfg, states, actions, k);
    assert b in states[k].pool.held;
    OwnedExists(states[k].pool, chain, b);
    hide BlockPool.Inv;
    BlockPool.Partition(states[k].pool, chain, b);
    forall j | 0 <= j < |states[k].producers| && j != i ensures b !in states[k].producers[j].blocks {
      assert if i < j then states[k].producers[i].blocks.Keys !! states[k].producers[j].blocks.Keys
             else states[k].producers[j].blocks.Keys !! states[k].producers[i].blocks.Keys;
    }
  }

  lemma OwnedExists(pool: BlockPool.State, chain: seq<BlockPool.Node>, b: BlockId)
    requires BlockPool.Inv(pool, chain) && b in pool.held
    ensures b < |pool.fl.refs|
  {
    assert b in pool.fl.owned;
  }
}
