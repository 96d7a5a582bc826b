/** What the calls on the free list answer: `try_get` returns nullptr only if the list was
    seen empty during the call, and alone it takes the first node; `add` alone puts its
    node in front. */
module FreeListCalls {
  import opened Basics
  import opened Tally
  import opened FreeList

  /** Thread `t` is inside the call that it made in step `i`, at state `j`. */
  ghost predicate Inside(states: seq<State>, i: nat, j: nat, t: nat) {
    j < |states| && forall k :: i < k <= j ==> t < |states[k].pcs| && states[k].pcs[t] != Idle
  }

  // ------------------------------------------------------------------ nullptr means empty

  /** Places of `try_get`, with the re-adding of a node that was flagged meanwhile. */
  predicate InGet(pc: Pc) {
    match pc
    case Idle => false
    case AddFlag(_) => false
    case PushLoad(_, after) => after.Retry?
    case PushLink(_, _, after) => after.Retry?
    case PushRef(_, _, after) => after.Retry?
    case PushCas(_, _, after) => after.Retry?
    case PushUndo(_, _, after) => after.Retry?
    case _ => true
  }

  /** The head this place goes back to the top of the loop with was null when it was read. */
  predicate SawNull(pc: Pc) {
    match pc
    case PushLoad(_, after) => after == Retry(Null)
    case PushLink(_, _, after) => after == Retry(Null)
    case PushRef(_, _, after) => after == Retry(Null)
    case PushCas(_, _, after) => after == Retry(Null)
    case PushUndo(_, _, after) => after == Retry(Null)
    case GetDrop(_, head) => head == Null
    case _ => false
  }

  /** A step of `t` inside `try_get`: it goes on, or takes a node, or gives up because the
      head is or was null. */
  lemma GetStep(s: State, t: nat)
    requires Shape(s) && t < |s.pcs| && InGet(s.pcs[t])
    ensures var pc, pc' := s.pcs[t], Apply(s, Run(t)).pcs[t];
            && (pc' == Idle ==> pc.GetTake? || SawNull(pc) || s.head == Null)
            && (pc' != Idle ==> InGet(pc') && (SawNull(pc') ==> SawNull(pc) || s.head == Null))
  {
  }

  lemma OthersStay(s: State, a: Action, t: nat)
    requires Shape(s) && Enabled(s, a) && t < |s.pcs| && a != Run(t) && s.pcs[t] != Idle
    ensures t < |Apply(s, a).pcs| && Apply(s, a).pcs[t] == s.pcs[t]
  {
  }

  lemma {:induction false} InsideGet(states: seq<State>, actions: seq<Action>, i: nat, j: nat, t: nat) returns (k: nat)
    requires IsRun(states, actions) && i < |actions| && actions[i] == CallGet(t) && i < j && Inside(states, i, j, t)
    ensures InGet(states[j].pcs[t])
    ensures SawNull(states[j].pcs[t]) ==> i < k < j && states[k].head == Null
    decreases j
  {
    hide Apply, Shape, Enabled, InGet, SawNull;
    k := i;
    assert IsStep(states[j - 1], actions[j - 1], states[j]);
    if j == i + 1 {
      CallGets(states[i], t);
    } else {
      k := InsideGet(states, actions, i, j - 1, t);
      if actions[j - 1] == Run(t) {
        GetStep(states[j - 1], t);
        if states[j - 1].head == Null { k := j - 1; }
      } else {
        OthersStay(states[j - 1], actions[j - 1], t);
      }
    }
  }

  lemma CallGets(s: State, t: nat)
    requires Shape(s) && Enabled(s, CallGet(t))
    ensures InGet(Apply(s, CallGet(t)).pcs[t]) && !SawNull(Apply(s, CallGet(t)).pcs[t])
  {
  }

  /** A call to `try_get` that is over and has taken no node has seen the list empty: in
      some state during the call the head was null. */
  lemma NullMeansEmpty(states: seq<State>, actions: seq<Action>, i: nat, j: nat, t: nat) returns (k: nat)
    requires IsRun(states, actions) && i < |actions| && actions[i] == CallGet(t)
    requires i + 1 < j < |states| && Inside(states, i, j - 1, t) && t < |states[j].pcs| && states[j].pcs[t] == Idle
    requires forall n: Node :: !Happens(states, actions, j - 1, Got(n))
    ensures i < k < j && states[k].head == Null
  {
    hide Apply, Shape, InGet, SawNull;
    var s, a := states[j - 1], actions[j - 1];
    assert IsStep(s, a, states[j]);
    k := InsideGet(states, actions, i, j - 1, t);
    if a == Run(t) {
      GetStep(s, t);
      assert s.pcs[t].GetTake? ==> Happens(states, actions, j - 1, Got(s.pcs[t].n));
      if s.head == Null { k := j - 1; }
    } else {
      OthersStay(s, a, t);
    }
  }

  // ------------------------------------------------------------------ a call alone

  ghost predicate AllIdle(s: State) {
    forall t :: 0 <= t < |s.pcs| ==> s.pcs[t] == Idle
  }

  /** The state after thread `t` has made `n` steps, and no other thread any. */
  function Alone(s: State, t: nat, n: nat): State {
    if n == 0 then s
    else
      var s' := Alone(s, t, n - 1);
      if Shape(s') && Enabled(s', Run(t)) then Apply(s', Run(t)) else s'
  }

  /** The list at rest, but for thread `t`. */
  ghost predicate Resting(s: State, chain: seq<Node>, t: nat, pc: Pc) {
    && Inv(s, chain) && t < |s.pcs| && s.pcs[t] == pc
    && (forall u :: 0 <= u < |s.pcs| && u != t ==> s.pcs[u] == Idle)
  }

  lemma StepResting(s: State, chain: seq<Node>, t: nat, pc: Pc)
    requires Resting(s, chain, t, pc) && pc != Idle
    ensures Shape(s) && Enabled(s, Run(t))
    ensures Resting(Apply(s, Run(t)), ChainAfter(s, chain, Run(t)), t, Apply(s, Run(t)).pcs[t])
  {
    hide NodeInv, Sum;
    StepInv(s, chain, Run(t));
  }

  /** A node on the list at rest, but for a call that has not counted it, has count one. */
  lemma RestingCount(s: State, chain: seq<Node>, t: nat, pc: Pc, n: Node)
    requires Resting(s, chain, t, pc) && n < |s.refs|
    requires RefWeight(n)(pc) == HandWeight(n)(pc) == PushWeight(n)(pc) == 0
    ensures s.refs[n] == Bit(n in chain)
  {
    hide Sum;
    assert NodeInv(s, chain, n);
    SumZero(s.pcs, RefWeight(n));
    SumZero(s.pcs, HandWeight(n));
    SumZero(s.pcs, PushWeight(n));
  }

  lemma AloneStep(s: State, t: nat, n: nat)
    requires Shape(Alone(s, t, n)) && Enabled(Alone(s, t, n), Run(t))
    ensures Alone(s, t, n + 1) == Apply(Alone(s, t, n), Run(t))
  {
  }

  /** One step further, with what the list then is. */
  lemma Further(s: State, t: nat, n: nat, chain: seq<Node>, pc: Pc)
    requires Resting(Alone(s, t, n), chain, t, pc) && pc != Idle
    ensures Shape(Alone(s, t, n)) && Enabled(Alone(s, t, n), Run(t))
    ensures var here := Alone(s, t, n);
            && Alone(s, t, n + 1) == Apply(here, Run(t))
            && Resting(Alone(s, t, n + 1), ChainAfter(here, chain, Run(t)), t, Apply(here, Run(t)).pcs[t])
  {
    hide Resting, Alone, Apply, ChainAfter, Shape;
    StepResting(Alone(s, t, n), chain, t, pc);
    AloneStep(s, t, n);
  }

  lemma CallGetRests(s: State, chain: seq<Node>, t: nat)
    requires Inv(s, chain) && AllIdle(s) && t < |s.pcs|
    ensures Shape(s) && Enabled(s, CallGet(t)) && Resting(Apply(s, CallGet(t)), chain, t, GetLoad)
  {
    hide NodeInv, Sum;
    StepInv(s, chain, CallGet(t));
  }

  lemma CallAddRests(s: State, chain: seq<Node>, t: nat, n: Node)
    requires Inv(s, chain) && AllIdle(s) && t < |s.pcs| && n in s.owned
    ensures Shape(s) && Enabled(s, CallAdd(t, n)) && Resting(Apply(s, CallAdd(t, n)), chain, t, AddFlag(n))
  {
    hide NodeInv, Sum;
    StepInv(s, chain, CallAdd(t, n));
  }

  lemma RestingShape(s: State, chain: seq<Node>, t: nat, pc: Pc)
    requires Resting(s, chain, t, pc)
    ensures Shape(s) && IsChain(s, chain) && t < |s.pcs| && s.pcs[t] == pc
  {
  }

  /** `try_get` alone finds nothing in an empty list, and nothing has changed. */
  lemma GetAloneEmpty(s: State, t: nat)
    requires Inv(s, []) && AllIdle(s) && t < |s.pcs|
    ensures Shape(s) && Enabled(s, CallGet(t)) && Alone(Apply(s, CallGet(t)), t, 1) == s
  {
    CallGetRests(s, [], t);
    Further(Apply(s, CallGet(t)), t, 0, [], GetLoad);
    assert s.pcs[t := Idle] == s.pcs;
  }

  /** The next step of `t` does not end its call. */
  predicate OnTheWay(s: State, t: nat) {
    && Shape(s) && Enabled(s, Run(t)) && Observe(s, Run(t)) == Nothing
    && Apply(s, Run(t)).pcs[t] != Idle && Shape(Apply(s, Run(t)))
  }

  /** The next step of `t` goes on within the call, to `pc`, and then the list is `chain`. */
  ghost predicate StepsTo(s: State, t: nat, chain: seq<Node>, pc: Pc) {
    && OnTheWay(s, t) && Apply(s, Run(t)).owned == s.owned
    && Resting(Apply(s, Run(t)), chain, t, pc)
  }

  lemma ShapeAfter(s: State, chain: seq<Node>, t: nat, pc: Pc)
    requires Resting(s, chain, t, pc) && pc != Idle
    ensures Shape(s) && Enabled(s, Run(t)) && Shape(Apply(s, Run(t)))
  {
    StepResting(s, chain, t, pc);
    assert t < |Apply(s, Run(t)).pcs|;
    hide Apply, Shape, Resting;
    RestingShape(Apply(s, Run(t)), ChainAfter(s, chain, Run(t)), t, Apply(s, Run(t)).pcs[t]);
  }

  lemma LoadsHead(s: State, chain: seq<Node>, t: nat)
    requires Resting(s, chain, t, GetLoad) && chain != []
    ensures StepsTo(s, t, chain, GetRefs(chain[0]))
  {
    RestingShape(s, chain, t, GetLoad);
    HeadOf(s, chain);
    hide Resting, Inv, Shape, IsChain;
    StepResting(s, chain, t, GetLoad);
    ShapeAfter(s, chain, t, GetLoad);
  }

  lemma LoadsRefs(s: State, chain: seq<Node>, t: nat, n: Node)
    requires Resting(s, chain, t, GetRefs(n)) && chain != [] && chain[0] == n
    ensures StepsTo(s, t, chain, GetCas(n, 1))
  {
    RestingShape(s, chain, t, GetRefs(n));
    HeadOf(s, chain);
    RestingCount(s, chain, t, GetRefs(n), n);
    hide Resting, Inv, Shape, IsChain;
    StepResting(s, chain, t, GetRefs(n));
    ShapeAfter(s, chain, t, GetRefs(n));
  }

  lemma CountsNode(s: State, chain: seq<Node>, t: nat, n: Node)
    requires Resting(s, chain, t, GetCas(n, 1)) && chain != [] && chain[0] == n
    ensures StepsTo(s, t, chain, GetNext(n))
  {
    RestingShape(s, chain, t, GetCas(n, 1));
    HeadOf(s, chain);
    RestingCount(s, chain, t, GetCas(n, 1), n);
    hide Resting, Inv, Shape, IsChain;
    StepResting(s, chain, t, GetCas(n, 1));
    ShapeAfter(s, chain, t, GetCas(n, 1));
  }

  lemma LoadsNext(s: State, chain: seq<Node>, t: nat, n: Node)
    requires Resting(s, chain, t, GetNext(n)) && n < |s.next|
    ensures StepsTo(s, t, chain, GetSwap(n, s.next[n]))
  {
    RestingShape(s, chain, t, GetNext(n));
    hide Resting, Inv, Shape, IsChain;
    StepResting(s, chain, t, GetNext(n));
    ShapeAfter(s, chain, t, GetNext(n));
  }

  lemma SwapsHead(s: State, chain: seq<Node>, t: nat, n: Node, next: Ptr)
    requires Resting(s, chain, t, GetSwap(n, next)) && chain != [] && chain[0] == n
    ensures StepsTo(s, t, chain[1..], GetCheck(n))
  {
    RestingShape(s, chain, t, GetSwap(n, next));
    HeadOf(s, chain);
    hide Resting, Inv, Shape, IsChain;
    StepResting(s, chain, t, GetSwap(n, next));
    ShapeAfter(s, chain, t, GetSwap(n, next));
  }

  lemma ChecksFlag(s: State, chain: seq<Node>, t: nat, n: Node)
    requires Resting(s, chain, t, GetCheck(n))
    ensures StepsTo(s, t, chain, GetTake(n))
  {
    RestingShape(s, chain, t, GetCheck(n));
    hide Resting, Inv, Shape, IsChain;
    StepResting(s, chain, t, GetCheck(n));
    ShapeAfter(s, chain, t, GetCheck(n));
  }

  lemma TakesNode(s: State, chain: seq<Node>, t: nat, n: Node)
    requires Resting(s, chain, t, GetTake(n))
    ensures Shape(s) && Enabled(s, Run(t)) && Observe(s, Run(t)) == Got(n)
    ensures Resting(Apply(s, Run(t)), chain, t, Idle) && Apply(s, Run(t)).owned == s.owned + {n}
  {
    RestingShape(s, chain, t, GetTake(n));
    hide Resting, Inv, Shape, IsChain;
    StepResting(s, chain, t, GetTake(n));
  }

  /** A step on the way, as the next state of the thread alone. */
  lemma NextAlone(s: State, t: nat, k: nat, chain: seq<Node>, pc: Pc)
    requires StepsTo(Alone(s, t, k), t, chain, pc)
    ensures OnTheWay(Alone(s, t, k), t)
    ensures Resting(Alone(s, t, k + 1), chain, t, pc) && Alone(s, t, k + 1).owned == Alone(s, t, k).owned
  {
    hide Resting, Shape, Apply, Alone, Observe;
    AloneStep(s, t, k);
  }

  /** The head of a list is a node that exists. */
  lemma HeadExists(s: State, chain: seq<Node>, t: nat, pc: Pc)
    requires Resting(s, chain, t, pc) && chain != []
    ensures chain[0] < |s.next|
  {
    RestingShape(s, chain, t, pc);
  }

  /** `try_get` alone takes the first node of the list, if there is one, and returns it in
      its seventh step. */
  lemma GetAlone(s: State, chain: seq<Node>, t: nat)
    requires Inv(s, chain) && AllIdle(s) && t < |s.pcs| && chain != []
    ensures Shape(s) && Enabled(s, CallGet(t))
    ensures var s0 := Apply(s, CallGet(t)); var s6, s7 := Alone(s0, t, 6), Alone(s0, t, 7);
            && (forall k: nat :: k < 6 ==> OnTheWay(Alone(s0, t, k), t))
            && Shape(s6) && Enabled(s6, Run(t)) && Observe(s6, Run(t)) == Got(chain[0])
            && AllIdle(s7) && Inv(s7, chain[1..]) && s7.owned == s.owned + {chain[0]}
  {
    CallGetRests(s, chain, t);
    var s0 := Apply(s, CallGet(t));
    assert s0.owned == s.owned;
    GetStages(s0, chain, t);
    hide *;
    var s6, s7 := Alone(s0, t, 6), Alone(s0, t, 7);
    TakesNode(s6, chain[1..], t, chain[0]);
    AloneStep(s0, t, 6);
    RestingIdle(s7, chain[1..], t);
  }

  lemma GetStages(s: State, chain: seq<Node>, t: nat)
    requires Resting(s, chain, t, GetLoad) && chain != []
    ensures forall k: nat :: k < 6 ==> OnTheWay(Alone(s, t, k), t)
    ensures Resting(Alone(s, t, 6), chain[1..], t, GetTake(chain[0])) && Alone(s, t, 6).owned == s.owned
  {
    hide *;
    var n := chain[0];
    AloneNone(s, t);
    LoadsHead(s, chain, t);
    NextAlone(s, t, 0, chain, GetRefs(n));
    LoadsRefs(Alone(s, t, 1), chain, t, n);
    NextAlone(s, t, 1, chain, GetCas(n, 1));
    CountsNode(Alone(s, t, 2), chain, t, n);
    NextAlone(s, t, 2, chain, GetNext(n));
    HeadExists(Alone(s, t, 3), chain, t, GetNext(n));
    var next := Alone(s, t, 3).next[n];
    LoadsNext(Alone(s, t, 3), chain, t, n);
    NextAlone(s, t, 3, chain, GetSwap(n, next));
    SwapsHead(Alone(s, t, 4), chain, t, n, next);
    NextAlone(s, t, 4, chain[1..], GetCheck(n));
    ChecksFlag(Alone(s, t, 5), chain[1..], t, n);
    NextAlone(s, t, 5, chain[1..], GetTake(n));
    forall k: nat | k < 6 ensures OnTheWay(Alone(s, t, k), t) {
      assert k == 0 || k == 1 || k == 2 || k == 3 || k == 4 || k == 5;
    }
  }

  lemma AloneNone(s: State, t: nat)
    ensures Alone(s, t, 0) == s
  {
  }

  lemma HeadOf(s: State, chain: seq<Node>)
    requires IsChain(s, chain) && chain != []
    ensures s.head == At(chain[0]) && chain[0] < |s.refs|
  {
  }

  lemma RestingIdle(s: State, chain: seq<Node>, t: nat)
    requires Resting(s, chain, t, Idle)
    ensures AllIdle(s) && Inv(s, chain)
  {
  }

  /** `add` alone puts its node in front of the list, in five steps. */
  lemma AddAlone(s: State, chain: seq<Node>, t: nat, n: Node)
    requires Inv(s, chain) && AllIdle(s) && t < |s.pcs| && n in s.owned
    ensures Shape(s) && Enabled(s, CallAdd(t, n))
    ensures var s5 := Alone(Apply(s, CallAdd(t, n)), t, 5);
            AllIdle(s5) && Inv(s5, [n] + chain) && s5.owned == s.owned - {n}
  {
    CallAddRests(s, chain, t, n);
    var s0 := Apply(s, CallAdd(t, n));
    OwnedCount(s, chain, n);
    assert s0.owned == s.owned - {n} && s0.refs == s.refs;
    AddStages(s0, chain, t, n);
    hide *;
    RestingIdle(Alone(s0, t, 5), [n] + chain, t);
  }

  lemma AddStages(s: State, chain: seq<Node>, t: nat, n: Node)
    requires Resting(s, chain, t, AddFlag(n)) && n < |s.refs| && s.refs[n] == 0
    ensures Resting(Alone(s, t, 5), [n] + chain, t, Idle) && Alone(s, t, 5).owned == s.owned
  {
    hide *;
    AloneNone(s, t);
    AddsFlag(s, chain, t, n);
    NextAlone(s, t, 0, chain, PushLoad(n, Return));
    var head := Alone(s, t, 1).head;
    LoadsForPush(Alone(s, t, 1), chain, t, n);
    NextAlone(s, t, 1, chain, PushLink(n, head, Return));
    HeadKept(Alone(s, t, 1), t, chain, PushLink(n, head, Return));
    AloneStep(s, t, 1);
    Links(Alone(s, t, 2), chain, t, n, head);
    NextAlone(s, t, 2, chain, PushRef(n, head, Return));
    HeadKept(Alone(s, t, 2), t, chain, PushRef(n, head, Return));
    AloneStep(s, t, 2);
    Counts(Alone(s, t, 3), chain, t, n, head);
    NextAlone(s, t, 3, chain, PushCas(n, head, Return));
    HeadKept(Alone(s, t, 3), t, chain, PushCas(n, head, Return));
    AloneStep(s, t, 3);
    Pushes(Alone(s, t, 4), chain, t, n, head);
    AloneStep(s, t, 4);
  }

  lemma AddsFlag(s: State, chain: seq<Node>, t: nat, n: Node)
    requires Resting(s, chain, t, AddFlag(n)) && n < |s.refs| && s.refs[n] == 0
    ensures StepsTo(s, t, chain, PushLoad(n, Return))
  {
    RestingShape(s, chain, t, AddFlag(n));
    hide Resting, Inv, Shape, IsChain;
    StepResting(s, chain, t, AddFlag(n));
    ShapeAfter(s, chain, t, AddFlag(n));
  }

  lemma LoadsForPush(s: State, chain: seq<Node>, t: nat, n: Node)
    requires Resting(s, chain, t, PushLoad(n, Return))
    ensures StepsTo(s, t, chain, PushLink(n, s.head, Return))
  {
    RestingShape(s, chain, t, PushLoad(n, Return));
    hide Resting, Inv, Shape, IsChain;
    StepResting(s, chain, t, PushLoad(n, Return));
    ShapeAfter(s, chain, t, PushLoad(n, Return));
  }

  lemma Links(s: State, chain: seq<Node>, t: nat, n: Node, head: Ptr)
    requires Resting(s, chain, t, PushLink(n, head, Return))
    ensures StepsTo(s, t, chain, PushRef(n, head, Return))
  {
    RestingShape(s, chain, t, PushLink(n, head, Return));
    hide Resting, Inv, Shape, IsChain;
    StepResting(s, chain, t, PushLink(n, head, Return));
    ShapeAfter(s, chain, t, PushLink(n, head, Return));
  }

  lemma Counts(s: State, chain: seq<Node>, t: nat, n: Node, head: Ptr)
    requires Resting(s, chain, t, PushRef(n, head, Return))
    ensures StepsTo(s, t, chain, PushCas(n, head, Return))
  {
    RestingShape(s, chain, t, PushRef(n, head, Return));
    hide Resting, Inv, Shape, IsChain;
    StepResting(s, chain, t, PushRef(n, head, Return));
    ShapeAfter(s, chain, t, PushRef(n, head, Return));
  }

  /** On the way to its CAS the thread leaves the head alone. */
  lemma HeadKept(s: State, t: nat, chain: seq<Node>, pc: Pc)
    requires StepsTo(s, t, chain, pc) && (pc.PushLink? || pc.PushRef? || pc.PushCas?)
    ensures Shape(s) && Enabled(s, Run(t)) && Apply(s, Run(t)).head == s.head
  {
    hide Resting, Shape;
    assert Apply(s, Run(t)).pcs[t] == pc by { RestingShape(Apply(s, Run(t)), chain, t, pc); }
  }

  lemma Pushes(s: State, chain: seq<Node>, t: nat, n: Node, head: Ptr)
    requires Resting(s, chain, t, PushCas(n, head, Return)) && s.head == head
    ensures Shape(s) && Enabled(s, Run(t))
    ensures Resting(Apply(s, Run(t)), [n] + chain, t, Idle) && Apply(s, Run(t)).owned == s.owned
  {
    RestingShape(s, chain, t, PushCas(n, head, Return));
    hide Resting, Inv, Shape, IsChain;
    StepResting(s, chain, t, PushCas(n, head, Return));
  }

  lemma OwnedCount(s: State, chain: seq<Node>, n: Node)
    requires Inv(s, chain) && AllIdle(s) && n in s.owned
    ensures n < |s.refs| && s.refs[n] == 0
  {
    Quiescent(s, chain, n);
  }
}
