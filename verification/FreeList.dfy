/** The reference-counted, CAS-based free list of concurrentqueue.h, as a transition
    system: any number of threads, each with a program counter, and one atomic access
    to `freeListHead`, `freeListRefs` or `freeListNext` per step. */
module FreeList {
  import opened Basics
  import opened Tally

  /** Nodes are numbered in the order in which they were created. */
  type Node = nat

  datatype Ptr = Null | At(node: Node)

  /** SHOULD_BE_ON_FREELIST; `refs & REFS_MASK` is `refs % FLAG`. */
  const FLAG: nat := 0x8000_0000
  /** The counter is a std::uint32_t. */
  const WORD: nat := 0x1_0000_0000

  /** What a thread does once `add_knowing_refcount_is_zero` returns. */
  datatype After = Return | Retry(head: Ptr)

  datatype Pc =
    | Idle
    // add
    | AddFlag(n: Node)
    // add_knowing_refcount_is_zero
    | PushLoad(n: Node, after: After)
    | PushLink(n: Node, head: Ptr, after: After)
    | PushRef(n: Node, head: Ptr, after: After)
    | PushCas(n: Node, head: Ptr, after: After)
    | PushUndo(n: Node, head: Ptr, after: After)
    // try_get
    | GetLoad
    | GetRefs(n: Node)
    | GetCas(n: Node, refs: nat)
    | GetNext(n: Node)
    | GetSwap(n: Node, next: Ptr)
    | GetCheck(n: Node)
    | GetTake(n: Node)
    | GetDrop(n: Node, head: Ptr)

  /** `owned` holds the nodes that clients have and have not passed to `add`. */
  datatype State = State(head: Ptr, refs: seq<nat>, next: seq<Ptr>, owned: set<Node>, pcs: seq<Pc>)

  datatype Action =
    | Create
    | CallAdd(t: nat, n: Node)
    | CallGet(t: nat)
    | Run(t: nat)

  datatype Event = Nothing | Gave(n: Node) | Got(n: Node)

  /** The state of an empty list used by `threads` threads. */
  function Initial(threads: nat): State {
    State(Null, [], [], {}, seq(threads, _ => Idle))
  }

  predicate Shape(s: State) {
    && |s.refs| == |s.next|
    && (s.head.At? ==> s.head.node < |s.refs|)
    && (forall n <- s.owned :: n < |s.refs|)
    && (forall n :: 0 <= n < |s.refs| ==> s.refs[n] < WORD)
    && (forall n :: 0 <= n < |s.next| ==> ValidPtr(s, s.next[n]))
    && (forall t :: 0 <= t < |s.pcs| ==> ValidPc(s, s.pcs[t]))
  }

  predicate ValidPtr(s: State, p: Ptr) {
    p.At? ==> p.node < |s.refs|
  }

  predicate ValidPc(s: State, pc: Pc) {
    && (!pc.Idle? && !pc.GetLoad? ==> pc.n < |s.refs|)
    && ((pc.PushLink? || pc.PushRef? || pc.PushCas? || pc.PushUndo? || pc.GetDrop?) ==> ValidPtr(s, pc.head))
    && ((pc.PushLoad? || pc.PushLink? || pc.PushRef? || pc.PushCas? || pc.PushUndo?) && pc.after.Retry? ==> ValidPtr(s, pc.after.head))
    && (pc.GetSwap? ==> ValidPtr(s, pc.next))
  }

  /** Clients may only add nodes they own; a thread makes one call at a time. */
  predicate Enabled(s: State, a: Action) {
    match a
    case Create => true
    case CallAdd(t, n) => t < |s.pcs| && s.pcs[t] == Idle && n in s.owned
    case CallGet(t) => t < |s.pcs| && s.pcs[t] == Idle
    case Run(t) => t < |s.pcs| && s.pcs[t] != Idle
  }

  /** The top of the loop in `try_get`, where a null head makes the call return nullptr. */
  function LoopTop(head: Ptr): Pc {
    if head.At? then GetRefs(head.node) else Idle
  }

  function Resume(after: After): Pc {
    match after
    case Return => Idle
    case Retry(head) => LoopTop(head)
  }

  function SetPc(s: State, t: nat, pc: Pc): State
    requires t < |s.pcs|
  {
    s.(pcs := s.pcs[t := pc])
  }

  function SetRefs(s: State, n: Node, r: nat): State
    requires n < |s.refs|
  {
    s.(refs := s.refs[n := r])
  }

  function Apply(s: State, a: Action): State
    requires Shape(s) && Enabled(s, a)
  {
    match a
    case Create => s.(refs := s.refs + [0], next := s.next + [Null], owned := s.owned + {|s.refs|})
    case CallAdd(t, n) => SetPc(s, t, AddFlag(n)).(owned := s.owned - {n})
    case CallGet(t) => SetPc(s, t, GetLoad)
    case Run(t) => Advance(s, t)
  }

  function Advance(s: State, t: nat): State
    requires Shape(s) && t < |s.pcs| && s.pcs[t] != Idle
  {
    match s.pcs[t]
    case AddFlag(n) =>
      var was := s.refs[n];
      SetPc(SetRefs(s, n, (was + FLAG) % WORD), t, if was == 0 then PushLoad(n, Return) else Idle)
    case PushLoad(n, after) =>
      SetPc(s, t, PushLink(n, s.head, after))
    case PushLink(n, head, after) =>
      SetPc(s.(next := s.next[n := head]), t, PushRef(n, head, after))
    case PushRef(n, head, after) =>
      SetPc(SetRefs(s, n, 1), t, PushCas(n, head, after))
    case PushCas(n, head, after) =>
      if s.head == head then SetPc(s.(head := At(n)), t, Resume(after))
      else SetPc(s, t, PushUndo(n, s.head, after))
    case PushUndo(n, head, after) =>
      var was := s.refs[n];
      SetPc(SetRefs(s, n, (was + FLAG - 1) % WORD), t,
            if was == 1 then PushLink(n, head, after) else Resume(after))
    case GetLoad =>
      SetPc(s, t, LoopTop(s.head))
    case GetRefs(n) =>
      SetPc(s, t, if s.refs[n] % FLAG == 0 then GetLoad else GetCas(n, s.refs[n]))
    case GetCas(n, refs) =>
      if s.refs[n] == refs then SetPc(SetRefs(s, n, (refs + 1) % WORD), t, GetNext(n))
      else SetPc(s, t, GetLoad)
    case GetNext(n) =>
      SetPc(s, t, GetSwap(n, s.next[n]))
    case GetSwap(n, next) =>
      if s.head == At(n) then SetPc(s.(head := next), t, GetCheck(n))
      else SetPc(s, t, GetDrop(n, s.head))
    case GetCheck(n) =>
      SetPc(s, t, GetTake(n))
    case GetTake(n) =>
      SetPc(SetRefs(s, n, (s.refs[n] + WORD - 2) % WORD), t, Idle).(owned := s.owned + {n})
    case GetDrop(n, head) =>
      var was := s.refs[n];
      SetPc(SetRefs(s, n, (was + WORD - 1) % WORD), t,
            if was == FLAG + 1 then PushLoad(n, Retry(head)) else LoopTop(head))
  }

  /** What a client sees happen in a step. */
  function Observe(s: State, a: Action): Event
    requires Shape(s) && Enabled(s, a)
  {
    match a
    case CallAdd(_, n) => Gave(n)
    case Run(t) => if s.pcs[t].GetTake? then Got(s.pcs[t].n) else Nothing
    case _ => Nothing
  }

  // ------------------------------------------------------------------ counting

  /** References of `n` that a thread accounts for. A thread that took `n` off the
      list accounts for the list's reference too, until it drops both at once. */
  function RefWeight(n: Node): Pc -> nat {
    (pc: Pc) =>
      match pc
      case GetNext(m) => if m == n then 1 else 0
      case GetSwap(m, _) => if m == n then 1 else 0
      case GetDrop(m, _) => if m == n then 1 else 0
      case GetCheck(m) => if m == n then 2 else 0
      case GetTake(m) => if m == n then 2 else 0
      case PushCas(m, _, _) => if m == n then 1 else 0
      case PushUndo(m, _, _) => if m == n then 1 else 0
      case _ => 0
  }

  /** Threads that have `n` in hand with its flag bit clear. */
  function HandWeight(n: Node): Pc -> nat {
    (pc: Pc) =>
      match pc
      case AddFlag(m) => if m == n then 1 else 0
      case PushCas(m, _, _) => if m == n then 1 else 0
      case PushUndo(m, _, _) => if m == n then 1 else 0
      case GetCheck(m) => if m == n then 1 else 0
      case GetTake(m) => if m == n then 1 else 0
      case _ => 0
  }

  /** Threads that are pushing `n` while its count is zero and its flag bit set. */
  function PushWeight(n: Node): Pc -> nat {
    (pc: Pc) =>
      match pc
      case PushLoad(m, _) => if m == n then 1 else 0
      case PushLink(m, _, _) => if m == n then 1 else 0
      case PushRef(m, _, _) => if m == n then 1 else 0
      case _ => 0
  }

  function Holders(s: State, n: Node): nat { Sum(s.pcs, RefWeight(n)) }
  function Hands(s: State, n: Node): nat { Sum(s.pcs, HandWeight(n)) }
  function Pushers(s: State, n: Node): nat { Sum(s.pcs, PushWeight(n)) }

  // ------------------------------------------------------------------ invariant

  function Successor(chain: seq<Node>, i: nat): Ptr {
    if i + 1 < |chain| then At(chain[i + 1]) else Null
  }

  /** `chain` lists the nodes reached from `freeListHead`, without repetition. */
  ghost predicate IsChain(s: State, chain: seq<Node>) {
    && |s.refs| == |s.next|
    && (forall i :: 0 <= i < |chain| ==> chain[i] < |s.refs|)
    && (forall i, j :: 0 <= i < j < |chain| ==> chain[i] != chain[j])
    && s.head == (if chain == [] then Null else At(chain[0]))
    && (forall i :: 0 <= i < |chain| ==> s.next[chain[i]] == Successor(chain, i))
  }

  /** The low bits count the holders and the list's own reference; exactly one of
      on-list, client-owned, in one thread's hand, flagged; and a flagged node with
      count zero has exactly one pusher. */
  ghost predicate NodeInv(s: State, chain: seq<Node>, n: Node)
    requires n < |s.refs|
  {
    var counted := Holders(s, n) + Bit(n in chain);
    && counted < FLAG
    && s.refs[n] == counted + (if s.refs[n] >= FLAG then FLAG else 0)
    && Hands(s, n) + Bit(n in s.owned) + Bit(n in chain) + Bit(s.refs[n] >= FLAG) == 1
    && Pushers(s, n) == Bit(s.refs[n] == FLAG)
  }

  /** While a reference is held, or the push is past its store, `freeListNext` is what was read or written. */
  ghost predicate LinkInv(s: State, pc: Pc)
    requires Shape(s) && ValidPc(s, pc)
  {
    match pc
    case PushRef(n, head, _) => s.next[n] == head
    case PushCas(n, head, _) => s.next[n] == head
    case GetSwap(n, next) => s.next[n] == next
    case GetCas(n, refs) => refs % FLAG != 0
    case _ => true
  }

  ghost predicate Inv(s: State, chain: seq<Node>) {
    && Shape(s)
    && |s.pcs| < FLAG - 1
    && IsChain(s, chain)
    && (forall n :: 0 <= n < |s.refs| ==> NodeInv(s, chain, n))
    && (forall t :: 0 <= t < |s.pcs| ==> LinkInv(s, s.pcs[t]))
  }

  lemma InitialInv(threads: nat)
    requires threads < FLAG - 1
    ensures Inv(Initial(threads), [])
  {
  }

  /** One thread's move changes the three sums of every node by the weight difference. */
  lemma SumsAfter(s: State, t: nat, pc: Pc, n: Node)
    requires t < |s.pcs|
    ensures Holders(SetPc(s, t, pc), n) + RefWeight(n)(s.pcs[t]) == Holders(s, n) + RefWeight(n)(pc)
    ensures Hands(SetPc(s, t, pc), n) + HandWeight(n)(s.pcs[t]) == Hands(s, n) + HandWeight(n)(pc)
    ensures Pushers(SetPc(s, t, pc), n) + PushWeight(n)(s.pcs[t]) == Pushers(s, n) + PushWeight(n)(pc)
    ensures RefWeight(n)(s.pcs[t]) <= Holders(s, n)
    ensures HandWeight(n)(s.pcs[t]) <= Hands(s, n)
    ensures PushWeight(n)(s.pcs[t]) <= Pushers(s, n)
  {
    hide Sum;
    SumUpdate(s.pcs, RefWeight(n), t, pc);
    SumUpdate(s.pcs, HandWeight(n), t, pc);
    SumUpdate(s.pcs, PushWeight(n), t, pc);
    SumAtLeast(s.pcs, RefWeight(n), t);
    SumAtLeast(s.pcs, HandWeight(n), t);
    SumAtLeast(s.pcs, PushWeight(n), t);
  }

  /** A reference can be added without the count reaching the flag bit. */
  lemma RoomToCount(s: State, chain: seq<Node>, t: nat, n: Node)
    requires Inv(s, chain) && t < |s.pcs| && n < |s.refs|
    requires RefWeight(n)(s.pcs[t]) == 0
    ensures Holders(s, n) + Bit(n in chain) + 1 < FLAG
  {
    assert NodeInv(s, chain, n);
    SumWithin(s.pcs, RefWeight(n), HandWeight(n), t);
  }

  /** A step that changes only one thread's program counter keeps the invariant if the
      thread carries over the same weights and its new counter is consistent. */
  lemma OnlyPc(s: State, chain: seq<Node>, t: nat, pc: Pc)
    requires Inv(s, chain) && t < |s.pcs| && ValidPc(s, pc) && LinkInv(s, pc)
    requires forall n :: 0 <= n < |s.refs| ==>
      && RefWeight(n)(pc) == RefWeight(n)(s.pcs[t])
      && HandWeight(n)(pc) == HandWeight(n)(s.pcs[t])
      && PushWeight(n)(pc) == PushWeight(n)(s.pcs[t])
    ensures Inv(SetPc(s, t, pc), chain)
  {
    hide Sum;
    var s' := SetPc(s, t, pc);
    forall n | 0 <= n < |s.refs| ensures NodeInv(s', chain, n) {
      assert NodeInv(s, chain, n);
      SumsAfter(s, t, pc, n);
    }
    forall u | 0 <= u < |s'.pcs| ensures ValidPc(s', s'.pcs[u]) && LinkInv(s', s'.pcs[u]) {
      assert ValidPc(s, s'.pcs[u]) && LinkInv(s, s'.pcs[u]);
    }
  }

  /** A step that moves one thread and rewrites the counter of one node `m`: the other
      nodes are unaffected when the weights moved are those of `m` alone. */
  lemma PcAndRefs(s: State, chain: seq<Node>, t: nat, pc: Pc, m: Node, r: nat)
    requires Inv(s, chain) && t < |s.pcs| && ValidPc(s, pc) && LinkInv(s, pc)
    requires m < |s.refs| && r < WORD
    requires forall n :: 0 <= n < |s.refs| && n != m ==>
      && RefWeight(n)(pc) == RefWeight(n)(s.pcs[t])
      && HandWeight(n)(pc) == HandWeight(n)(s.pcs[t])
      && PushWeight(n)(pc) == PushWeight(n)(s.pcs[t])
    requires NodeInv(SetPc(SetRefs(s, m, r), t, pc), chain, m)
    ensures Inv(SetPc(SetRefs(s, m, r), t, pc), chain)
  {
    hide Sum;
    var s' := SetPc(SetRefs(s, m, r), t, pc);
    forall n | 0 <= n < |s.refs| ensures NodeInv(s', chain, n) {
      assert NodeInv(s, chain, n);
      SumsAfter(SetRefs(s, m, r), t, pc, n);
    }
    forall u | 0 <= u < |s'.pcs| ensures ValidPc(s', s'.pcs[u]) && LinkInv(s', s'.pcs[u]) {
      assert ValidPc(s, s'.pcs[u]) && LinkInv(s, s'.pcs[u]);
    }
  }

  /** The steps that rewrite one counter: `add`'s fetch_add, the store of 1, the undo of
      a failed push, the counted CAS, and the two decrements of `try_get`. */
  lemma StepRefs(s: State, chain: seq<Node>, t: nat)
    requires Inv(s, chain) && t < |s.pcs| && RewritesCounter(s, t)
    ensures Inv(Advance(s, t), chain)
  {
    hide Sum;
    var n := s.pcs[t].n;
    var s' := Advance(s, t);
    CounterAfter(s, chain, t);
    PcAndRefs(s, chain, t, s'.pcs[t], n, s'.refs[n]);
  }

  predicate RewritesCounter(s: State, t: nat)
    requires Shape(s) && t < |s.pcs|
  {
    var pc := s.pcs[t];
    pc.AddFlag? || pc.PushRef? || pc.PushUndo? || pc.GetDrop? || (pc.GetCas? && s.refs[pc.n] == pc.refs)
  }

  /** The node whose counter is rewritten satisfies its invariant again. */
  lemma CounterAfter(s: State, chain: seq<Node>, t: nat)
    requires Inv(s, chain) && t < |s.pcs| && RewritesCounter(s, t)
    ensures NodeInv(Advance(s, t), chain, s.pcs[t].n)
    ensures LinkInv(Advance(s, t), Advance(s, t).pcs[t])
  {
    hide Sum;
    match s.pcs[t]
    case AddFlag(_) => FlagAfterAdd(s, chain, t);
    case PushRef(_, _, _) => CounterAfterPushRef(s, chain, t);
    case PushUndo(_, _, _) => CounterAfterUndo(s, chain, t);
    case GetCas(_, _) => CounterAfterCas(s, chain, t);
    case GetDrop(_, _) => CounterAfterDrop(s, chain, t);
  }

  lemma FlagAfterAdd(s: State, chain: seq<Node>, t: nat)
    requires Inv(s, chain) && t < |s.pcs| && s.pcs[t].AddFlag?
    ensures NodeInv(Advance(s, t), chain, s.pcs[t].n)
    ensures LinkInv(Advance(s, t), Advance(s, t).pcs[t])
  {
    hide Sum;
    var n := s.pcs[t].n;
    assert ValidPc(s, s.pcs[t]) && LinkInv(s, s.pcs[t]) && NodeInv(s, chain, n);
    SumsAfter(s, t, Advance(s, t).pcs[t], n);
  }

  lemma CounterAfterPushRef(s: State, chain: seq<Node>, t: nat)
    requires Inv(s, chain) && t < |s.pcs| && s.pcs[t].PushRef?
    ensures NodeInv(Advance(s, t), chain, s.pcs[t].n)
    ensures LinkInv(Advance(s, t), Advance(s, t).pcs[t])
  {
    hide Sum;
    var n := s.pcs[t].n;
    assert ValidPc(s, s.pcs[t]) && LinkInv(s, s.pcs[t]) && NodeInv(s, chain, n);
    SumsAfter(s, t, Advance(s, t).pcs[t], n);
  }

  lemma CounterAfterUndo(s: State, chain: seq<Node>, t: nat)
    requires Inv(s, chain) && t < |s.pcs| && s.pcs[t].PushUndo?
    ensures NodeInv(Advance(s, t), chain, s.pcs[t].n)
    ensures LinkInv(Advance(s, t), Advance(s, t).pcs[t])
  {
    hide Sum;
    var n := s.pcs[t].n;
    assert ValidPc(s, s.pcs[t]) && LinkInv(s, s.pcs[t]) && NodeInv(s, chain, n);
    SumsAfter(s, t, Advance(s, t).pcs[t], n);
  }

  lemma CounterAfterCas(s: State, chain: seq<Node>, t: nat)
    requires Inv(s, chain) && t < |s.pcs| && s.pcs[t].GetCas? && s.refs[s.pcs[t].n] == s.pcs[t].refs
    ensures NodeInv(Advance(s, t), chain, s.pcs[t].n)
    ensures LinkInv(Advance(s, t), Advance(s, t).pcs[t])
  {
    hide Sum;
    var n := s.pcs[t].n;
    assert ValidPc(s, s.pcs[t]) && LinkInv(s, s.pcs[t]) && NodeInv(s, chain, n);
    RoomToCount(s, chain, t, n);
    SumsAfter(s, t, Advance(s, t).pcs[t], n);
  }

  lemma CounterAfterDrop(s: State, chain: seq<Node>, t: nat)
    requires Inv(s, chain) && t < |s.pcs| && s.pcs[t].GetDrop?
    ensures NodeInv(Advance(s, t), chain, s.pcs[t].n)
    ensures LinkInv(Advance(s, t), Advance(s, t).pcs[t])
  {
    hide Sum;
    var n := s.pcs[t].n;
    assert ValidPc(s, s.pcs[t]) && LinkInv(s, s.pcs[t]) && NodeInv(s, chain, n);
    SumsAfter(s, t, Advance(s, t).pcs[t], n);
  }

  /** The last step of a successful `try_get` hands the node to the client. */
  lemma StepTake(s: State, chain: seq<Node>, t: nat)
    requires Inv(s, chain) && t < |s.pcs| && s.pcs[t].GetTake?
    ensures Inv(Advance(s, t), chain)
  {
    hide Sum;
    var n := s.pcs[t].n;
    var s' := Advance(s, t);
    forall m | 0 <= m < |s.refs| ensures NodeInv(s', chain, m) {
      assert NodeInv(s, chain, m);
      SumsAfter(s, t, Idle, m);
    }
    forall u | 0 <= u < |s'.pcs| ensures ValidPc(s', s'.pcs[u]) && LinkInv(s', s'.pcs[u]) {
      assert ValidPc(s, s'.pcs[u]) && LinkInv(s, s'.pcs[u]);
    }
  }

  lemma StepCallAdd(s: State, chain: seq<Node>, t: nat, n: Node)
    requires Inv(s, chain) && Enabled(s, CallAdd(t, n))
    ensures Inv(Apply(s, CallAdd(t, n)), chain)
  {
    hide Sum;
    var s' := Apply(s, CallAdd(t, n));
    forall m | 0 <= m < |s.refs| ensures NodeInv(s', chain, m) {
      assert NodeInv(s, chain, m);
      SumsAfter(s, t, AddFlag(n), m);
    }
    forall u | 0 <= u < |s'.pcs| ensures ValidPc(s', s'.pcs[u]) && LinkInv(s', s'.pcs[u]) {
      assert ValidPc(s, s'.pcs[u]) && LinkInv(s, s'.pcs[u]);
    }
  }

  lemma StepCreate(s: State, chain: seq<Node>)
    requires Inv(s, chain)
    ensures Inv(Apply(s, Create), chain)
  {
    hide Sum;
    var s' := Apply(s, Create);
    var newest := |s.refs|;
    forall t | 0 <= t < |s'.pcs| ensures ValidPc(s', s'.pcs[t]) && LinkInv(s', s'.pcs[t]) {
      assert ValidPc(s, s.pcs[t]) && LinkInv(s, s.pcs[t]);
    }
    assert forall t :: 0 <= t < |s.pcs| ==> ValidPc(s, s.pcs[t]);
    SumZero(s.pcs, RefWeight(newest));
    SumZero(s.pcs, HandWeight(newest));
    SumZero(s.pcs, PushWeight(newest));
    forall n | 0 <= n < |s'.refs| ensures NodeInv(s', chain, n) {
      if n < newest {
        assert NodeInv(s, chain, n);
      }
    }
  }

  /** Storing `freeListNext` is safe: nobody else counts, holds or pushes the node. */
  lemma StepLink(s: State, chain: seq<Node>, t: nat)
    requires Inv(s, chain) && t < |s.pcs| && s.pcs[t].PushLink?
    ensures Inv(Advance(s, t), chain)
  {
    hide Sum;
    var n := s.pcs[t].n;
    var s' := Advance(s, t);
    assert ValidPc(s, s.pcs[t]) && NodeInv(s, chain, n);
    SumAtLeast(s.pcs, PushWeight(n), t);
    forall u | 0 <= u < |s'.pcs| ensures ValidPc(s', s'.pcs[u]) && LinkInv(s', s'.pcs[u]) {
      assert ValidPc(s, s.pcs[u]) && LinkInv(s, s.pcs[u]);
      if u != t {
        SumAtLeast(s.pcs, RefWeight(n), u);
        if u < t { SumAtLeastTwo(s.pcs, PushWeight(n), u, t); } else { SumAtLeastTwo(s.pcs, PushWeight(n), t, u); }
      }
    }
    forall m | 0 <= m < |s.refs| ensures NodeInv(s', chain, m) {
      assert NodeInv(s, chain, m);
      SumsAfter(s, t, s'.pcs[t], m);
    }
  }

  /** The pusher's node is in nobody else's way. */
  lemma PushChain(s: State, chain: seq<Node>, t: nat)
    requires Inv(s, chain) && t < |s.pcs| && s.pcs[t].PushCas? && s.head == s.pcs[t].head
    ensures s.pcs[t].n !in chain && IsChain(Advance(s, t), [s.pcs[t].n] + chain)
  {
    hide Sum;
    var n := s.pcs[t].n;
    var s' := Advance(s, t);
    var chain' := [n] + chain;
    assert ValidPc(s, s.pcs[t]) && LinkInv(s, s.pcs[t]) && NodeInv(s, chain, n);
    SumAtLeast(s.pcs, HandWeight(n), t);
    forall i | 0 <= i < |chain'|
      ensures s'.next[chain'[i]] == Successor(chain', i)
    {
      if i > 0 {
        assert chain'[i] == chain[i - 1];
        assert Successor(chain', i) == Successor(chain, i - 1);
      }
    }
  }

  lemma NodeAfterPush(s: State, chain: seq<Node>, t: nat, m: Node)
    requires Inv(s, chain) && t < |s.pcs| && s.pcs[t].PushCas? && s.head == s.pcs[t].head && m < |s.refs|
    ensures NodeInv(Advance(s, t), [s.pcs[t].n] + chain, m)
  {
    hide Sum;
    PushChain(s, chain, t);
    assert NodeInv(s, chain, m);
    assert m in [s.pcs[t].n] + chain <==> m == s.pcs[t].n || m in chain;
    SumsAfter(s, t, Advance(s, t).pcs[t], m);
  }

  /** A successful push puts its node in front of the chain. */
  lemma StepPush(s: State, chain: seq<Node>, t: nat)
    requires Inv(s, chain) && t < |s.pcs| && s.pcs[t].PushCas? && s.head == s.pcs[t].head
    ensures Inv(Advance(s, t), [s.pcs[t].n] + chain)
  {
    hide Sum, NodeInv;
    var n := s.pcs[t].n;
    var s' := Advance(s, t);
    var chain' := [n] + chain;
    PushChain(s, chain, t);
    assert ValidPc(s, s.pcs[t]) && LinkInv(s, s.pcs[t]);
    forall m | 0 <= m < |s.refs| ensures NodeInv(s', chain', m) {
      NodeAfterPush(s, chain, t, m);
    }
    forall u | 0 <= u < |s'.pcs| ensures ValidPc(s', s'.pcs[u]) && LinkInv(s', s'.pcs[u]) {
      assert ValidPc(s, s.pcs[u]) && LinkInv(s, s.pcs[u]);
    }
  }

  lemma PopChain(s: State, chain: seq<Node>, t: nat)
    requires Inv(s, chain) && t < |s.pcs| && s.pcs[t].GetSwap? && s.head == At(s.pcs[t].n)
    ensures chain != [] && chain[0] == s.pcs[t].n && IsChain(Advance(s, t), chain[1..])
  {
    hide Sum, NodeInv;
    var s' := Advance(s, t);
    assert ValidPc(s, s.pcs[t]) && LinkInv(s, s.pcs[t]);
    var chain' := chain[1..];
    forall i | 0 <= i < |chain'|
      ensures s'.next[chain'[i]] == Successor(chain', i)
    {
      assert chain'[i] == chain[i + 1];
      assert Successor(chain', i) == Successor(chain, i + 1);
    }
    assert s.next[chain[0]] == Successor(chain, 0);
  }

  /** A successful head CAS of `try_get` installs the true successor: it removes
      exactly the first node of the chain. */
  lemma StepPop(s: State, chain: seq<Node>, t: nat)
    requires Inv(s, chain) && t < |s.pcs| && s.pcs[t].GetSwap? && s.head == At(s.pcs[t].n)
    ensures chain != [] && chain[0] == s.pcs[t].n
    ensures Inv(Advance(s, t), chain[1..])
  {
    hide Sum;
    var s' := Advance(s, t);
    assert ValidPc(s, s.pcs[t]) && LinkInv(s, s.pcs[t]);
    var chain' := chain[1..];
    PopChain(s, chain, t);
    forall m | 0 <= m < |s.refs| ensures NodeInv(s', chain', m) {
      NodeAfterPop(s, chain, t, m);
    }
    forall u | 0 <= u < |s'.pcs| ensures ValidPc(s', s'.pcs[u]) && LinkInv(s', s'.pcs[u]) {
      assert ValidPc(s, s.pcs[u]) && LinkInv(s, s.pcs[u]);
    }
  }

  lemma NodeAfterPop(s: State, chain: seq<Node>, t: nat, m: Node)
    requires Inv(s, chain) && t < |s.pcs| && s.pcs[t].GetSwap? && s.head == At(s.pcs[t].n) && m < |s.refs|
    ensures chain != [] && NodeInv(Advance(s, t), chain[1..], m)
  {
    hide Sum;
    var n := s.pcs[t].n;
    assert NodeInv(s, chain, m);
    assert chain == [n] + chain[1..];
    assert m in chain <==> m == n || m in chain[1..];
    SumsAfter(s, t, GetCheck(n), m);
  }

  /** What the chain becomes in a step. */
  function ChainAfter(s: State, chain: seq<Node>, a: Action): seq<Node>
    requires Shape(s) && Enabled(s, a)
  {
    if a.Run? && s.pcs[a.t].PushCas? && s.head == s.pcs[a.t].head then [s.pcs[a.t].n] + chain
    else if a.Run? && s.pcs[a.t].GetSwap? && s.head == At(s.pcs[a.t].n) && chain != [] then chain[1..]
    else chain
  }

  /** Every step of every thread keeps the invariant, and the chain changes only by
      pushing a node in front or by removing the first. */
  lemma StepInv(s: State, chain: seq<Node>, a: Action)
    requires Inv(s, chain) && Enabled(s, a)
    ensures Inv(Apply(s, a), ChainAfter(s, chain, a))
  {
    hide Sum;
    match a
    case Create => StepCreate(s, chain);
    case CallAdd(t, n) => StepCallAdd(s, chain, t, n);
    case CallGet(t) => OnlyPc(s, chain, t, GetLoad);
    case Run(t) =>
      var pc := s.pcs[t];
      if RewritesCounter(s, t) {
        StepRefs(s, chain, t);
      } else if pc.GetTake? {
        StepTake(s, chain, t);
      } else if pc.PushLink? {
        StepLink(s, chain, t);
      } else if pc.PushCas? && s.head == pc.head {
        StepPush(s, chain, t);
      } else if pc.GetSwap? && s.head == At(pc.n) {
        StepPop(s, chain, t);
      } else {
        StepLocal(s, chain, t);
      }
  }

  /** The remaining steps only load, or fail a CAS. */
  lemma StepLocal(s: State, chain: seq<Node>, t: nat)
    requires Inv(s, chain) && t < |s.pcs| && s.pcs[t] != Idle && !RewritesCounter(s, t)
    requires var pc := s.pcs[t];
             && !pc.GetTake? && !pc.PushLink?
             && (pc.PushCas? ==> s.head != pc.head)
             && (pc.GetSwap? ==> s.head != At(pc.n))
    ensures Inv(Advance(s, t), chain)
  {
    hide Sum;
    assert ValidPc(s, s.pcs[t]) && LinkInv(s, s.pcs[t]);
    OnlyPc(s, chain, t, Advance(s, t).pcs[t]);
  }

  // ------------------------------------------------------------------ what the invariant means

  /** Thread `t` is adding or pushing `n`, or has taken it off the list and not yet returned it. */
  predicate InHand(s: State, n: Node, t: nat) {
    t < |s.pcs| && HandWeight(n)(s.pcs[t]) + PushWeight(n)(s.pcs[t]) > 0
  }

  /** The flag bit asks whoever drops the last reference to add the node. */
  predicate Awaiting(s: State, n: Node) {
    n < |s.refs| && s.refs[n] > FLAG
  }

  /** Every node is on the list, or owned by a client, or awaiting its re-add, or in the
      hand of one thread: exactly one of the four, and of one thread only. */
  lemma Exclusive(s: State, chain: seq<Node>, n: Node)
    requires Inv(s, chain) && n < |s.refs|
    ensures forall t, u :: InHand(s, n, t) && InHand(s, n, u) ==> t == u
    ensures Bit(n in chain) + Bit(n in s.owned) + Bit(Awaiting(s, n)) + Bit(exists t :: InHand(s, n, t)) == 1
  {
    assert NodeInv(s, chain, n);
    forall t, u | InHand(s, n, t) && InHand(s, n, u) && t < u ensures false {
      SumAtLeastTwo(s.pcs, HandWeight(n), t, u);
      SumAtLeastTwo(s.pcs, PushWeight(n), t, u);
      SumAtLeast(s.pcs, HandWeight(n), t);
      SumAtLeast(s.pcs, PushWeight(n), u);
      SumAtLeast(s.pcs, HandWeight(n), u);
      SumAtLeast(s.pcs, PushWeight(n), t);
    }
    if Hands(s, n) > 0 {
      var t := SumPositive(s.pcs, HandWeight(n));
      assert InHand(s, n, t);
    } else if Pushers(s, n) > 0 {
      var t := SumPositive(s.pcs, PushWeight(n));
      assert InHand(s, n, t);
    } else if exists t :: InHand(s, n, t) {
      var t :| InHand(s, n, t);
      SumAtLeast(s.pcs, HandWeight(n), t);
      SumAtLeast(s.pcs, PushWeight(n), t);
    }
  }

  /** The assertion in `try_get` that a node just taken off the list is not flagged. */
  lemma TakenNodeIsNotFlagged(s: State, chain: seq<Node>, t: nat)
    requires Inv(s, chain) && t < |s.pcs| && s.pcs[t].GetCheck?
    ensures s.refs[s.pcs[t].n] < FLAG
  {
    var n := s.pcs[t].n;
    assert ValidPc(s, s.pcs[t]) && NodeInv(s, chain, n);
    SumAtLeast(s.pcs, HandWeight(n), t);
  }

  /** While a reference to a node is held, no step of any thread changes its link. */
  lemma HeldLinkIsStable(s: State, chain: seq<Node>, a: Action, n: Node)
    requires Inv(s, chain) && Enabled(s, a) && n < |s.refs| && Holders(s, n) > 0
    ensures n < |Apply(s, a).next| && Apply(s, a).next[n] == s.next[n]
  {
    if a.Run? && s.pcs[a.t].PushLink? && s.pcs[a.t].n == n {
      assert NodeInv(s, chain, n);
      SumAtLeast(s.pcs, PushWeight(n), a.t);
    }
  }

  /** A flagged node is never forgotten: some thread still holds a counted reference. */
  lemma AwaitingIsHeld(s: State, chain: seq<Node>, n: Node) returns (t: nat)
    requires Inv(s, chain) && Awaiting(s, n)
    ensures t < |s.pcs| && (s.pcs[t].GetNext? || s.pcs[t].GetSwap? || s.pcs[t].GetDrop?) && s.pcs[t].n == n
  {
    assert NodeInv(s, chain, n);
    t := SumPositive(s.pcs, RefWeight(n));
    SumAtLeast(s.pcs, HandWeight(n), t);
  }

  /** With no call in progress every node is on the list or owned, and its count is
      one or zero accordingly: nothing leaks. */
  lemma Quiescent(s: State, chain: seq<Node>, n: Node)
    requires Inv(s, chain) && n < |s.refs|
    requires forall t :: 0 <= t < |s.pcs| ==> s.pcs[t] == Idle
    ensures n in chain <==> n !in s.owned
    ensures s.refs[n] == Bit(n in chain)
  {
    assert NodeInv(s, chain, n);
    SumZero(s.pcs, RefWeight(n));
    SumZero(s.pcs, HandWeight(n));
    SumZero(s.pcs, PushWeight(n));
  }

  // ------------------------------------------------------------------ runs

  /** The states of a run from the empty list, one action between each two. */
  ghost predicate IsRun(states: seq<State>, actions: seq<Action>) {
    && |states| == |actions| + 1
    && (exists threads: nat :: threads < FLAG - 1 && states[0] == Initial(threads))
    && (forall i :: 0 <= i < |actions| ==> IsStep(states[i], actions[i], states[i + 1]))
  }

  ghost predicate IsStep(s: State, a: Action, s': State) {
    Shape(s) && Enabled(s, a) && s' == Apply(s, a)
  }

  lemma {:induction false} RunInv(states: seq<State>, actions: seq<Action>, i: nat) returns (chain: seq<Node>)
    requires IsRun(states, actions) && i < |states|
    ensures Inv(states[i], chain)
  {
    if i == 0 {
      var threads: nat :| threads < FLAG - 1 && states[0] == Initial(threads);
      InitialInv(threads);
      chain := [];
    } else {
      chain := RunInv(states, actions, i - 1);
      assert IsStep(states[i - 1], actions[i - 1], states[i]);
      StepInv(states[i - 1], chain, actions[i - 1]);
      chain := ChainAfter(states[i - 1], chain, actions[i - 1]);
    }
  }

  ghost predicate Happens(states: seq<State>, actions: seq<Action>, i: nat, e: Event) {
    i < |actions| && i < |states| && Shape(states[i]) && Enabled(states[i], actions[i]) && Observe(states[i], actions[i]) == e
  }

  /** Between two hand-outs of the same node some client added it back. */
  lemma NotHandedOutTwice(states: seq<State>, actions: seq<Action>, n: Node, i: nat, j: nat)
    requires IsRun(states, actions) && i < j
    requires Happens(states, actions, i, Got(n)) && Happens(states, actions, j, Got(n))
    ensures exists k :: i < k < j && Happens(states, actions, k, Gave(n))
  {
    assert IsStep(states[i], actions[i], states[i + 1]);
    var chain := RunInv(states, actions, j);
    assert ValidPc(states[j], states[j].pcs[actions[j].t]);
    assert NodeInv(states[j], chain, n);
    SumAtLeast(states[j].pcs, HandWeight(n), actions[j].t);
    var _ := LeavesOwned(states, actions, n, i + 1, j);
  }

  /** A node stops being owned only by being added. */
  lemma {:induction false} LeavesOwned(states: seq<State>, actions: seq<Action>, n: Node, i: nat, j: nat) returns (k: nat)
    requires IsRun(states, actions) && i <= j < |states|
    requires n in states[i].owned && n !in states[j].owned
    ensures i <= k < j && Happens(states, actions, k, Gave(n))
    decreases j - i
  {
    assert IsStep(states[i], actions[i], states[i + 1]);
    if n !in states[i + 1].owned {
      k := i;
    } else {
      k := LeavesOwned(states, actions, n, i + 1, j);
    }
  }
}
