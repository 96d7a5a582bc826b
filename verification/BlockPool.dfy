/** Where blocks come from and go to: the initial pool, the free list and the allocator,
    used by any number of threads. Blocks are the nodes of the free list; those of the
    initial pool are the first `size` of them. */
module BlockPool {
  import opened Basics
  import FreeList

  type Node = FreeList.Node

  /** What a thread does about blocks; its place inside a free-list call is in `fl.pcs`. */
  datatype Place =
    | Out
    | Test(canAlloc: bool)
    | Draw(canAlloc: bool)
    | Search(canAlloc: bool)
    | Make
    | Adding

  /** `index` is initialBlockPoolIndex; `held` are the blocks that producers have. */
  datatype State = State(fl: FreeList.State, size: nat, index: nat, held: set<Node>, places: seq<Place>)

  /** `ok` answers an allocation. */
  datatype Action =
    | Requisition(t: nat, canAlloc: bool)
    | Release(t: nat, b: Node)
    | Run(t: nat, ok: bool)

  /** The free list of `threads` threads before any call, with `size` blocks created. */
  function Created(threads: nat, size: nat): (r: FreeList.State)
    ensures FreeList.Shape(r) && |r.refs| == size && |r.pcs| == threads
    ensures forall n :: n in r.owned <==> 0 <= n < size
    ensures forall t :: 0 <= t < threads ==> r.pcs[t] == FreeList.Idle
  {
    if size == 0 then FreeList.Initial(threads) else FreeList.Apply(Created(threads, size - 1), FreeList.Create)
  }

  /** populate_initial_block_list: all or nothing. */
  function Initial(threads: nat, size: nat, ok: bool): State {
    var blocks := if ok then size else 0;
    State(Created(threads, blocks), blocks, 0, {}, seq(threads, _ => Out))
  }

  predicate Shape(s: State) {
    FreeList.Shape(s.fl) && |s.places| == |s.fl.pcs| && s.size <= |s.fl.refs|
  }

  /** A producer gives back only blocks it has. */
  predicate Enabled(s: State, a: Action) {
    && a.t < |s.places| == |s.fl.pcs|
    && (match a
        case Requisition(t, _) => s.places[t].Out? && s.fl.pcs[t].Idle?
        case Release(t, b) => s.places[t].Out? && s.fl.pcs[t].Idle? && b in s.held && b in s.fl.owned
        case Run(t, _) => !s.places[t].Out? && (s.places[t].Search? || s.places[t].Adding? <==> !s.fl.pcs[t].Idle?))
  }

  function SetPlace(s: State, t: nat, p: Place): State
    requires t < |s.places|
  {
    s.(places := s.places[t := p])
  }

  function Apply(s: State, a: Action): State
    requires Shape(s) && Enabled(s, a)
  {
    match a
    case Requisition(t, canAlloc) => SetPlace(s, t, Test(canAlloc))
    case Release(t, b) =>
      SetPlace(s, t, Adding).(fl := FreeList.Apply(s.fl, FreeList.CallAdd(t, b)), held := s.held - {b})
    case Run(t, ok) => Advance(s, t, ok)
  }

  /** The pool has nothing: on to the free list. */
  function Searching(s: State, t: nat, canAlloc: bool): State
    requires Shape(s) && t < |s.places| && s.fl.pcs[t].Idle?
  {
    SetPlace(s, t, Search(canAlloc)).(fl := FreeList.Apply(s.fl, FreeList.CallGet(t)))
  }

  function Advance(s: State, t: nat, ok: bool): State
    requires Shape(s) && Enabled(s, Run(t, ok))
  {
    match s.places[t]
    case Test(canAlloc) => if s.index >= s.size then Searching(s, t, canAlloc) else SetPlace(s, t, Draw(canAlloc))
    case Draw(canAlloc) =>
      var s' := s.(index := s.index + 1);
      if s.index < s.size then SetPlace(s', t, Out).(held := s.held + {s.index}) else Searching(s', t, canAlloc)
    case Search(canAlloc) =>
      var fl := FreeList.Apply(s.fl, FreeList.Run(t));
      var event := FreeList.Observe(s.fl, FreeList.Run(t));
      if event.Got? then SetPlace(s, t, Out).(fl := fl, held := s.held + {event.n})
      else SetPlace(s, t, if !fl.pcs[t].Idle? then Search(canAlloc) else if canAlloc then Make else Out).(fl := fl)
    case Make =>
      if ok then SetPlace(s, t, Out).(fl := FreeList.Apply(s.fl, FreeList.Create), held := s.held + {|s.fl.refs|})
      else SetPlace(s, t, Out)
    case Adding =>
      var fl := FreeList.Apply(s.fl, FreeList.Run(t));
      SetPlace(s, t, if fl.pcs[t].Idle? then Out else Adding).(fl := fl)
  }

  /** The block a step hands to a producer. */
  function Obtained(s: State, a: Action): set<Node>
    requires Shape(s) && Enabled(s, a)
  {
    Apply(s, a).held - s.held
  }

  /** A step that returns a block from requisition_block. */
  predicate Succeeds(s: State, a: Action)
    requires Shape(s) && Enabled(s, a)
  {
    a.Run? && (match s.places[a.t]
               case Draw(_) => s.index < s.size
               case Search(_) => s.fl.pcs[a.t].GetTake?
               case Make => a.ok
               case _ => false)
  }

  // ------------------------------------------------------------------ invariant

  predicate InPool(s: State, n: Node) {
    s.index <= n < s.size
  }

  ghost predicate InCall(pc: FreeList.Pc, p: Place) {
    && (p.Search? || p.Adding? <==> !pc.Idle?)
    && (pc.GetTake? ==> p.Search?)
    && (p.Adding? ==> pc.AddFlag? || pc.PushLoad? || pc.PushLink? || pc.PushRef? || pc.PushCas? || pc.PushUndo?)
    && (p.Adding? && !pc.AddFlag? ==> pc.after.Return?)
  }

  /** Blocks that clients of the free list own are those still in the pool and those
      that producers have, and never both. */
  ghost predicate Inv(s: State, chain: seq<Node>) {
    && Shape(s)
    && FreeList.Inv(s.fl, chain)
    && (forall n :: n in s.fl.owned <==> n in s.held || InPool(s, n))
    && (forall n <- s.held :: !InPool(s, n))
    && (forall t :: 0 <= t < |s.places| ==> InCall(s.fl.pcs[t], s.places[t]))
  }

  lemma {:induction false} CreatedInv(threads: nat, size: nat)
    requires threads < FreeList.FLAG - 1
    ensures FreeList.Inv(Created(threads, size), [])
  {
    if size == 0 {
      FreeList.InitialInv(threads);
    } else {
      CreatedInv(threads, size - 1);
      FreeList.StepInv(Created(threads, size - 1), [], FreeList.Create);
    }
  }

  lemma InitialInv(threads: nat, size: nat, ok: bool)
    requires threads < FreeList.FLAG - 1
    ensures Inv(Initial(threads, size, ok), [])
  {
    CreatedInv(threads, if ok then size else 0);
  }

  /** What a free-list call in progress means for ownership. */
  lemma CallSteps(fl: FreeList.State, t: nat)
    requires FreeList.Shape(fl) && t < |fl.pcs| && !fl.pcs[t].Idle?
    ensures var fl', e := FreeList.Apply(fl, FreeList.Run(t)), FreeList.Observe(fl, FreeList.Run(t));
            && fl'.owned == (if e.Got? then fl.owned + {e.n} else fl.owned)
            && |fl'.pcs| == |fl.pcs| && |fl'.refs| == |fl.refs|
            && (forall u :: 0 <= u < |fl.pcs| && u != t ==> fl'.pcs[u] == fl.pcs[u])
            && (e.Got? <==> fl.pcs[t].GetTake?) && !e.Gave?
  {
  }

  lemma CallPlaces(fl: FreeList.State, t: nat, p: Place)
    requires FreeList.Shape(fl) && t < |fl.pcs| && InCall(fl.pcs[t], p) && !fl.pcs[t].Idle?
    ensures var pc := FreeList.Apply(fl, FreeList.Run(t)).pcs[t];
            && (p.Adding? ==> InCall(pc, if pc.Idle? then Out else Adding))
            && (p.Search? && !pc.Idle? ==> InCall(pc, p))
            && (fl.pcs[t].GetTake? ==> pc.Idle?)
  {
  }

  /** Every step keeps the invariant, and each requisition that succeeds gives out
      exactly one block, which no producer had. */
  lemma StepInv(s: State, chain: seq<Node>, a: Action) returns (chain': seq<Node>)
    requires Inv(s, chain) && Enabled(s, a)
    ensures Inv(Apply(s, a), chain')
    ensures |Obtained(s, a)| == if Succeeds(s, a) then 1 else 0
  {
    hide FreeList.Inv;
    chain' := chain;
    match a
    case Requisition(_, _) =>
    case Release(t, b) => chain' := StepRelease(s, chain, t, b);
    case Run(t, ok) =>
      match s.places[t] {
        case Test(_) => if s.index >= s.size { StepSearching(s, chain, t, s.places[t].canAlloc); }
        case Draw(_) => StepDraw(s, chain, t, ok);
        case Search(_) => chain' := StepCall(s, chain, t, ok);
        case Adding => chain' := StepCall(s, chain, t, ok);
        case Make => StepMake(s, chain, t, ok);
      }
  }

  lemma StepRelease(s: State, chain: seq<Node>, t: nat, b: Node) returns (chain': seq<Node>)
    requires Inv(s, chain) && Enabled(s, Release(t, b))
    ensures Inv(Apply(s, Release(t, b)), chain') && Obtained(s, Release(t, b)) == {}
  {
    hide FreeList.Inv;
    FreeList.StepInv(s.fl, chain, FreeList.CallAdd(t, b));
    chain' := FreeList.ChainAfter(s.fl, chain, FreeList.CallAdd(t, b));
    InvShape(FreeList.Apply(s.fl, FreeList.CallAdd(t, b)), chain');
  }

  lemma InvShape(fl: FreeList.State, chain: seq<Node>)
    requires FreeList.Inv(fl, chain)
    ensures FreeList.Shape(fl)
  {
  }

  lemma StepDraw(s: State, chain: seq<Node>, t: nat, ok: bool)
    requires Inv(s, chain) && Enabled(s, Run(t, ok)) && s.places[t].Draw?
    ensures Inv(Apply(s, Run(t, ok)), chain) && |Obtained(s, Run(t, ok))| == if s.index < s.size then 1 else 0
  {
    hide FreeList.Inv, FreeList.Shape;
    if s.index >= s.size {
      StepSearching(s.(index := s.index + 1), chain, t, s.places[t].canAlloc);
    } else {
      assert Obtained(s, Run(t, ok)) == {s.index};
    }
  }

  lemma StepMake(s: State, chain: seq<Node>, t: nat, ok: bool)
    requires Inv(s, chain) && Enabled(s, Run(t, ok)) && s.places[t].Make?
    ensures Inv(Apply(s, Run(t, ok)), chain) && |Obtained(s, Run(t, ok))| == if ok then 1 else 0
  {
    hide FreeList.Inv;
    if ok {
      FreeList.StepInv(s.fl, chain, FreeList.Create);
      InvShape(FreeList.Apply(s.fl, FreeList.Create), chain);
      assert Obtained(s, Run(t, ok)) == {|s.fl.refs|};
    }
  }

  lemma StepSearching(s: State, chain: seq<Node>, t: nat, canAlloc: bool)
    requires Inv(s, chain) && t < |s.places| && s.fl.pcs[t].Idle? && s.index >= s.size
    ensures Inv(Searching(s, t, canAlloc), chain)
  {
    hide FreeList.Inv;
    FreeList.StepInv(s.fl, chain, FreeList.CallGet(t));
    InvShape(FreeList.Apply(s.fl, FreeList.CallGet(t)), chain);
  }

  /** A block taken off the free list belongs to nobody until the call returns. */
  lemma TakenIsNotOwned(fl: FreeList.State, chain: seq<Node>, t: nat)
    requires FreeList.Inv(fl, chain) && t < |fl.pcs| && fl.pcs[t].GetTake?
    ensures fl.pcs[t].n < |fl.refs| && fl.pcs[t].n !in fl.owned
  {
    assert FreeList.ValidPc(fl, fl.pcs[t]);
    assert FreeList.InHand(fl, fl.pcs[t].n, t);
    FreeList.Exclusive(fl, chain, fl.pcs[t].n);
  }

  /** One thread moves on inside its call, possibly with a block for a producer. */
  lemma CallInv(s: State, chain: seq<Node>, fl: FreeList.State, chain': seq<Node>, t: nat, p: Place, held: set<Node>)
    requires Inv(s, chain) && FreeList.Inv(fl, chain') && t < |s.places|
    requires |fl.pcs| == |s.fl.pcs| && |fl.refs| == |s.fl.refs| && InCall(fl.pcs[t], p)
    requires forall u :: 0 <= u < |fl.pcs| && u != t ==> fl.pcs[u] == s.fl.pcs[u]
    requires forall n :: n in fl.owned <==> n in s.fl.owned || n in held
    requires s.held <= held && forall n <- held :: n in s.held || n !in s.fl.owned
    ensures Inv(SetPlace(s, t, p).(fl := fl, held := held), chain')
  {
    hide FreeList.Inv, FreeList.Shape;
    InvShape(fl, chain');
  }

  lemma StepCall(s: State, chain: seq<Node>, t: nat, ok: bool) returns (chain': seq<Node>)
    requires Inv(s, chain) && Enabled(s, Run(t, ok)) && (s.places[t].Search? || s.places[t].Adding?)
    ensures Inv(Apply(s, Run(t, ok)), chain')
    ensures |Obtained(s, Run(t, ok))| == if s.fl.pcs[t].GetTake? then 1 else 0
  {
    var fl, p := FreeList.Apply(s.fl, FreeList.Run(t)), s.places[t];
    chain' := FreeList.ChainAfter(s.fl, chain, FreeList.Run(t));
    hide FreeList.Inv, FreeList.Apply, FreeList.Advance, FreeList.Shape, FreeList.ChainAfter, InCall, InPool;
    CallSteps(s.fl, t);
    assert InCall(s.fl.pcs[t], p);
    CallPlaces(s.fl, t, p);
    FreeList.StepInv(s.fl, chain, FreeList.Run(t));
    if s.fl.pcs[t].GetTake? {
      var n := s.fl.pcs[t].n;
      TakenIsNotOwned(s.fl, chain, t);
      CallInv(s, chain, fl, chain', t, Out, s.held + {n});
      assert Obtained(s, Run(t, ok)) == {n};
    } else if p.Search? {
      CallInv(s, chain, fl, chain', t, if !fl.pcs[t].Idle? then p else if p.canAlloc then Make else Out, s.held);
    } else {
      CallInv(s, chain, fl, chain', t, if fl.pcs[t].Idle? then Out else Adding, s.held);
    }
  }

  // ------------------------------------------------------------------ conservation

  /** Inside a free-list call, or flagged for the thread that still counts it. */
  ghost predicate InTransit(s: State, n: Node) {
    FreeList.Awaiting(s.fl, n) || exists t :: FreeList.InHand(s.fl, n, t)
  }

  /** Every block ever created is in the initial pool, or with a producer, or on the free
      list, or in transit: exactly one of the four. */
  lemma Partition(s: State, chain: seq<Node>, n: Node)
    requires Inv(s, chain) && n < |s.fl.refs|
    ensures Bit(InPool(s, n)) + Bit(n in s.held) + Bit(n in chain) + Bit(InTransit(s, n)) == 1
  {
    hide FreeList.Inv, FreeList.Shape;
    FreeList.Exclusive(s.fl, chain, n);
  }

  /** With no call in progress nothing is in transit: no block is lost. */
  lemma NothingLost(s: State, chain: seq<Node>, n: Node)
    requires Inv(s, chain) && n < |s.fl.refs| && forall t :: 0 <= t < |s.places| ==> s.places[t].Out?
    ensures Bit(InPool(s, n)) + Bit(n in s.held) + Bit(n in chain) == 1
  {
    Partition(s, chain, n);
    assert forall t :: 0 <= t < |s.fl.pcs| ==> InCall(s.fl.pcs[t], s.places[t]);
    FreeList.Quiescent(s.fl, chain, n);
  }

  ghost predicate IsStep(s: State, a: Action, s': State) {
    Shape(s) && Enabled(s, a) && s' == Apply(s, a)
  }

  ghost predicate IsRun(states: seq<State>, actions: seq<Action>) {
    && |states| == |actions| + 1
    && (exists threads: nat, size: nat, ok :: threads < FreeList.FLAG - 1 && states[0] == Initial(threads, size, ok))
    && (forall i :: 0 <= i < |actions| ==> IsStep(states[i], actions[i], states[i + 1]))
  }

  lemma {:induction false} RunInv(states: seq<State>, actions: seq<Action>, i: nat) returns (chain: seq<Node>)
    requires IsRun(states, actions) && i < |states|
    ensures Inv(states[i], chain)
  {
    hide Inv, Apply, Shape, Enabled, Initial;
    if i == 0 {
      var threads: nat, size: nat, ok :| threads < FreeList.FLAG - 1 && states[0] == Initial(threads, size, ok);
      InitialInv(threads, size, ok);
      chain := [];
    } else {
      var before := RunInv(states, actions, i - 1);
      assert IsStep(states[i - 1], actions[i - 1], states[i]);
      chain := StepInv(states[i - 1], before, actions[i - 1]);
    }
  }
}
