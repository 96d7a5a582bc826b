/** What requisition_block answers: nothing only if the initial pool was used up, the free
    list was seen empty, and, where allocating is allowed, the allocation was refused. */
module BlockPoolCalls {
  import FreeList
  import FreeListCalls
  import opened BlockPool

  /** Thread `t` is inside the call that it made in step `i`, at state `j`. */
  ghost predicate Inside(states: seq<State>, i: nat, j: nat, t: nat) {
    i < j < |states| && forall k :: i < k <= j ==> t < |states[k].places| && !states[k].places[t].Out?
  }

  ghost predicate SawEmpty(states: seq<State>, i: nat, j: nat)
    requires j < |states|
  {
    exists k :: i < k <= j && states[k].fl.head == FreeList.Null
  }

  /** Inside a requisition: where it may be, and what it has seen. */
  ghost predicate CallInv(s: State, t: nat, canAlloc: bool, empty: bool) {
    && t < |s.places| == |s.fl.pcs|
    && match s.places[t]
       case Test(c) => c == canAlloc
       case Draw(c) => c == canAlloc
       case Search(c) => c == canAlloc && s.index >= s.size && FreeListCalls.InGet(s.fl.pcs[t]) && (FreeListCalls.SawNull(s.fl.pcs[t]) ==> empty)
       case Make => canAlloc && s.index >= s.size && empty
       case _ => false
  }

  /** A step of the calling thread: it goes on, or is over with one block, or with none,
      which takes an empty list, and a refused allocation if one is allowed. */
  lemma CallStep(s: State, t: nat, ok: bool, canAlloc: bool, empty: bool)
    requires Shape(s) && Enabled(s, Run(t, ok)) && CallInv(s, t, canAlloc, empty)
    ensures var s' := Apply(s, Run(t, ok));
            && (!s'.places[t].Out? ==> CallInv(s', t, canAlloc, empty || s.fl.head == FreeList.Null))
            && (s'.places[t].Out? && !Succeeds(s, Run(t, ok)) ==>
                  && s.index >= s.size && (empty || s.fl.head == FreeList.Null)
                  && (canAlloc ==> s.places[t].Make? && !ok))
  {
    if s.places[t].Search? {
      FreeListCalls.GetStep(s.fl, t);
    }
  }

  lemma OthersStay(s: State, a: Action, t: nat, canAlloc: bool, empty: bool)
    requires Shape(s) && Enabled(s, a) && a.t != t && CallInv(s, t, canAlloc, empty)
    ensures CallInv(Apply(s, a), t, canAlloc, empty) && !Apply(s, a).places[t].Out?
  {
  }

  lemma CallBegins(s: State, t: nat, canAlloc: bool)
    requires Shape(s) && Enabled(s, Requisition(t, canAlloc))
    ensures CallInv(Apply(s, Requisition(t, canAlloc)), t, canAlloc, false)
  {
  }

  lemma InvGrows(s: State, t: nat, canAlloc: bool, empty: bool)
    requires CallInv(s, t, canAlloc, empty)
    ensures CallInv(s, t, canAlloc, true)
  {
  }

  lemma {:induction false} InsideCall(states: seq<State>, actions: seq<Action>, i: nat, j: nat, t: nat)
    requires IsRun(states, actions) && i < |actions| && actions[i].Requisition? && actions[i].t == t && Inside(states, i, j, t)
    ensures CallInv(states[j], t, actions[i].canAlloc, SawEmpty(states, i, j - 1))
    decreases j
  {
    hide Apply, Shape, Enabled, CallInv;
    var s, a := states[j - 1], actions[j - 1];
    assert IsStep(s, a, states[j]);
    if j == i + 1 {
      CallBegins(s, t, a.canAlloc);
    } else {
      InsideCall(states, actions, i, j - 1, t);
      var before := SawEmpty(states, i, j - 2);
      assert before ==> SawEmpty(states, i, j - 1);
      assert s.fl.head == FreeList.Null ==> SawEmpty(states, i, j - 1);
      if a.t == t {
        Running(s, a, t, actions[i].canAlloc, before);
        CallStep(s, t, a.ok, actions[i].canAlloc, before);
      } else {
        OthersStay(s, a, t, actions[i].canAlloc, before);
      }
      if SawEmpty(states, i, j - 1) && CallInv(states[j], t, actions[i].canAlloc, before || s.fl.head == FreeList.Null) {
        InvGrows(states[j], t, actions[i].canAlloc, before || s.fl.head == FreeList.Null);
      }
      if CallInv(states[j], t, actions[i].canAlloc, before) && SawEmpty(states, i, j - 1) {
        InvGrows(states[j], t, actions[i].canAlloc, before);
      }
    }
  }

  /** A thread inside a call only runs. */
  lemma Running(s: State, a: Action, t: nat, canAlloc: bool, empty: bool)
    requires Shape(s) && Enabled(s, a) && a.t == t && CallInv(s, t, canAlloc, empty)
    ensures a.Run?
  {
  }

  /** A requisition that is over either hands out a block, or has found the initial pool used
      up and the free list empty, and has asked for an allocation in vain if it may
      allocate; and it never allocates if it may not. */
  lemma RequisitionOutcome(states: seq<State>, actions: seq<Action>, i: nat, j: nat, t: nat)
    requires IsRun(states, actions) && i < |actions| && actions[i].Requisition? && actions[i].t == t
    requires i + 1 < j < |states| && Inside(states, i, j - 1, t) && t < |states[j].places| && states[j].places[t].Out?
    ensures var s, a := states[j - 1], actions[j - 1];
            && a.Run? && a.t == t && Shape(s) && Enabled(s, a)
            && (!Succeeds(s, a) ==> s.index >= s.size && SawEmpty(states, i, j - 1) && (actions[i].canAlloc ==> s.places[t].Make? && !a.ok))
            && (s.places[t].Make? ==> actions[i].canAlloc)
  {
    var s, a := states[j - 1], actions[j - 1];
    assert IsStep(s, a, states[j]);
    InsideCall(states, actions, i, j - 1, t);
    var before := SawEmpty(states, i, j - 2);
    assert before || s.fl.head == FreeList.Null ==> SawEmpty(states, i, j - 1);
    MakeMay(s, t, actions[i].canAlloc, before);
    hide Apply, Shape, Enabled, CallInv, Succeeds;
    LastStep(s, a, states[j], t, actions[i].canAlloc, before);
  }

  lemma LastStep(s: State, a: Action, s': State, t: nat, canAlloc: bool, empty: bool)
    requires IsStep(s, a, s') && CallInv(s, t, canAlloc, empty) && t < |s'.places| && s'.places[t].Out?
    ensures a.Run? && a.t == t
    ensures !Succeeds(s, a) ==> s.index >= s.size && (empty || s.fl.head == FreeList.Null) && (canAlloc ==> s.places[t].Make? && !a.ok)
  {
    hide Apply, Shape, Enabled, CallInv, Succeeds;
    if a.t != t {
      OthersStay(s, a, t, canAlloc, empty);
      assert false;
    }
    Running(s, a, t, canAlloc, empty);
    CallStep(s, t, a.ok, canAlloc, empty);
  }

  lemma MakeMay(s: State, t: nat, canAlloc: bool, empty: bool)
    requires CallInv(s, t, canAlloc, empty)
    ensures s.places[t].Make? ==> canAlloc
  {
  }

  // ------------------------------------------------------------------ a requisition alone

  ghost predicate AllOut(s: State) {
    forall t :: 0 <= t < |s.places| ==> s.places[t].Out?
  }

  /** The state after thread `t` has made `n` steps, and no other thread any; allocations
      succeed. */
  function Alone(s: State, t: nat, n: nat): State {
    if n == 0 then s
    else
      var s' := Alone(s, t, n - 1);
      if Shape(s') && Enabled(s', Run(t, true)) then Apply(s', Run(t, true)) else s'
  }

  lemma AloneStep(s: State, t: nat, n: nat)
    requires Shape(Alone(s, t, n)) && Enabled(Alone(s, t, n), Run(t, true))
    ensures Alone(s, t, n + 1) == Apply(Alone(s, t, n), Run(t, true))
  {
  }

  lemma AtRest(s: State, chain: seq<Node>, t: nat, canAlloc: bool)
    requires Inv(s, chain) && AllOut(s) && t < |s.places|
    ensures Shape(s) && FreeList.Inv(s.fl, chain) && FreeListCalls.AllIdle(s.fl) && |s.places| == |s.fl.pcs|
    ensures Enabled(s, Requisition(t, canAlloc)) && Shape(Apply(s, Requisition(t, canAlloc)))
    ensures forall n: Node :: n in chain ==> n !in s.held
  {
    hide FreeList.NodeInv, FreeList.IsChain;
    forall u | 0 <= u < |s.fl.pcs| ensures s.fl.pcs[u] == FreeList.Idle {
      assert InCall(s.fl.pcs[u], s.places[u]);
    }
    forall n: Node | n in chain ensures n !in s.held {
      ListedNotHeld(s, chain, n);
    }
  }

  lemma ListedNotHeld(s: State, chain: seq<Node>, n: Node)
    requires Inv(s, chain) && n in chain
    ensures n !in s.held
  {
    hide FreeList.NodeInv;
    assert n < |s.fl.refs|;
    Partition(s, chain, n);
  }

  /** From the initial pool, while it lasts. */
  lemma AloneFromPool(s: State, chain: seq<Node>, t: nat, canAlloc: bool)
    requires Inv(s, chain) && AllOut(s) && t < |s.places| && s.index < s.size
    ensures Enabled(s, Requisition(t, canAlloc)) && Shape(s)
    ensures var end := Alone(Apply(s, Requisition(t, canAlloc)), t, 2);
            AllOut(end) && end.held == s.held + {s.index} && s.index !in s.held
  {
    hide FreeList.Inv, FreeList.Shape;
    AtRest(s, chain, t, canAlloc);
    var s0 := Apply(s, Requisition(t, canAlloc));
    AloneStep(s0, t, 0);
    AloneStep(s0, t, 1);
    assert InPool(s, s.index);
  }

  /** While the free list is searched the pool follows it, step by step. */
  lemma {:induction false} SearchFollows(s: State, t: nat, n: nat, canAlloc: bool)
    requires Shape(s) && t < |s.places| && s.places[t] == Search(canAlloc)
    requires forall k: nat :: k < n ==> FreeListCalls.OnTheWay(FreeListCalls.Alone(s.fl, t, k), t)
    ensures var s' := Alone(s, t, n); s' == s.(fl := FreeListCalls.Alone(s.fl, t, n)) && Shape(s')
  {
    hide FreeList.Shape, FreeList.Apply, FreeListCalls.OnTheWay, FreeList.Enabled;
    if n > 0 {
      SearchFollows(s, t, n - 1, canAlloc);
      var here := Alone(s, t, n - 1);
      assert FreeListCalls.OnTheWay(here.fl, t);
      SearchStep(here, t, canAlloc);
      AloneStep(s, t, n - 1);
      FreeListCalls.AloneStep(s.fl, t, n - 1);
    } else {
      FreeListCalls.AloneNone(s.fl, t);
    }
  }

  lemma SearchStep(s: State, t: nat, canAlloc: bool)
    requires Shape(s) && t < |s.places| && s.places[t] == Search(canAlloc) && FreeListCalls.OnTheWay(s.fl, t)
    ensures FreeList.Shape(s.fl) && FreeList.Enabled(s.fl, FreeList.Run(t)) && Enabled(s, Run(t, true))
    ensures Apply(s, Run(t, true)) == s.(fl := FreeList.Apply(s.fl, FreeList.Run(t))) && Shape(Apply(s, Run(t, true)))
  {
    CallSteps(s.fl, t);
    hide FreeList.Shape, FreeList.Apply;
    assert s.places[t := s.places[t]] == s.places;
  }

  lemma {:induction false} AloneAdds(s: State, t: nat, m: nat, n: nat)
    ensures Alone(s, t, m + n) == Alone(Alone(s, t, m), t, n)
  {
    hide Shape, Enabled, Apply;
    if n > 0 { AloneAdds(s, t, m, n - 1); }
  }

  /** Then from the free list, while there is a block on it. */
  lemma AloneFromList(s: State, chain: seq<Node>, t: nat, canAlloc: bool)
    requires Inv(s, chain) && AllOut(s) && t < |s.places| && s.index >= s.size && chain != []
    ensures Enabled(s, Requisition(t, canAlloc)) && Shape(s)
    ensures var end := Alone(Apply(s, Requisition(t, canAlloc)), t, 8);
            AllOut(end) && end.held == s.held + {chain[0]} && chain[0] !in s.held
  {
    AtRest(s, chain, t, canAlloc);
    var s0 := Apply(s, Requisition(t, canAlloc));
    var s1 := SearchBegins(s, s0, t, canAlloc);
    FreeListCalls.GetAlone(s.fl, chain, t);
    assert s0.held == s.held && chain[0] in chain;
    hide *;
    SearchFollows(s1, t, 6, canAlloc);
    SearchEnds(Alone(s1, t, 6), t, canAlloc, chain[0]);
    AloneStep(s1, t, 6);
    AloneAdds(s0, t, 1, 7);
    OnlyOne(s, s1, Alone(s1, t, 6), Alone(s1, t, 7), t);
  }

  lemma SearchBegins(s: State, s0: State, t: nat, canAlloc: bool) returns (s1: State)
    requires Shape(s) && Enabled(s, Requisition(t, canAlloc)) && s0 == Apply(s, Requisition(t, canAlloc)) && Shape(s0) && s.index >= s.size
    ensures s1 == Alone(s0, t, 1) && s1.places == s.places[t := Search(canAlloc)] && s1.held == s.held && Shape(s1)
    ensures FreeList.Enabled(s.fl, FreeList.CallGet(t)) && s1.fl == FreeList.Apply(s.fl, FreeList.CallGet(t))
  {
    AloneStep(s0, t, 0);
    s1 := Apply(s0, Run(t, true));
    hide FreeList.ValidPtr;
    assert Alone(s0, t, 0) == s0;
  }

  lemma SearchEnds(s: State, t: nat, canAlloc: bool, n: Node)
    requires Shape(s) && t < |s.places| && s.places[t] == Search(canAlloc)
    requires FreeList.Shape(s.fl) && FreeList.Enabled(s.fl, FreeList.Run(t)) && FreeList.Observe(s.fl, FreeList.Run(t)) == FreeList.Got(n)
    ensures Enabled(s, Run(t, true))
    ensures var s' := Apply(s, Run(t, true)); s'.places == s.places[t := Out] && s'.held == s.held + {n}
  {
    hide FreeList.Shape, FreeList.Apply, FreeList.Observe;
  }

  lemma OnlyOne(s: State, s1: State, s7: State, end: State, t: nat)
    requires AllOut(s) && t < |s.places| == |s1.places| && s1.places == s.places[t := s1.places[t]] && s7.places == s1.places && end.places == s7.places[t := Out]
    ensures AllOut(end)
  {
  }

  /** At last from the allocator, if it may. */
  lemma AloneFromAllocator(s: State, t: nat)
    requires Inv(s, []) && AllOut(s) && t < |s.places| && s.index >= s.size
    ensures Enabled(s, Requisition(t, true)) && Shape(s)
    ensures var end := Alone(Apply(s, Requisition(t, true)), t, 3);
            AllOut(end) && end.held == s.held + {|s.fl.refs|} && |s.fl.refs| !in s.held
  {
    AtRest(s, [], t, true);
    NewIsNotHeld(s);
    var s0 := Apply(s, Requisition(t, true));
    var s1 := SearchBegins(s, s0, t, true);
    FreeListCalls.GetAloneEmpty(s.fl, t);
    hide FreeList.Inv, Inv;
    EmptySearchEnds(s1, s.fl, t);
    AloneAdds(s0, t, 1, 1);
    AloneAdds(s0, t, 2, 1);
    AloneStep(s1, t, 0);
    AloneStep(s0, t, 2);
  }

  lemma NewIsNotHeld(s: State)
    requires Inv(s, [])
    ensures |s.fl.refs| !in s.held
  {
    hide FreeList.NodeInv;
    assert |s.fl.refs| in s.held ==> |s.fl.refs| in s.fl.owned;
  }

  lemma EmptySearchEnds(s: State, fl: FreeList.State, t: nat)
    requires Shape(s) && t < |s.places| && s.places[t] == Search(true) && s.fl.pcs[t] == FreeList.GetLoad
    requires FreeList.Shape(fl) && FreeListCalls.Alone(s.fl, t, 1) == fl && t < |fl.pcs| && fl.pcs[t] == FreeList.Idle
    ensures Enabled(s, Run(t, true)) && Alone(s, t, 0) == s
    ensures Apply(s, Run(t, true)) == s.(fl := fl, places := s.places[t := Make])
  {
    FreeListCalls.AloneNone(s.fl, t);
    FreeListCalls.AloneStep(s.fl, t, 0);
    hide FreeList.Shape;
  }
}
