/** What get_or_add_implicit_producer answers: nullptr only if an allocation was refused
    during the call; and alone, with memory, every call comes to an end with a producer. */
module ProducerHashCalls {
  import opened Basics
  import opened Circular
  import opened ProducerHash

  // ------------------------------------------------------------------ nullptr means refused

  /** On the way to returning nullptr. */
  predicate Refused(pc: Pc) {
    pc.NoTable? || pc.NoTableUnlock? || pc.NoProducer? || pc == Done(None)
  }

  /** An allocation asked for by thread `t` is refused: of a table, or of a producer. */
  predicate Refuses(s: State, a: Action, t: nat) {
    a == Run(t, false) && t < |s.pcs| && (s.pcs[t].Allocate? || s.pcs[t].Create?)
  }

  /** A step moves its own thread only. */
  lemma OneMoves(s: State, hashes: seq<nat>, a: Action)
    requires Shape(s) && Enabled(s, hashes, a)
    ensures |Apply(s, hashes, a).pcs| == |s.pcs|
    ensures Apply(s, hashes, a).pcs == s.pcs[a.t := Apply(s, hashes, a).pcs[a.t]]
  {
    assert Shape(s);
    hide Rem, Grown, Shape, Slot;
  }

  lemma StepRefuses(s: State, hashes: seq<nat>, a: Action, t: nat)
    requires Shape(s) && Enabled(s, hashes, a) && t < |s.pcs| && !s.pcs[t].Idle?
    ensures var s' := Apply(s, hashes, a);
            |s'.pcs| == |s.pcs| && (!s'.pcs[t].Idle? ==> (Refused(s'.pcs[t]) <==> Refused(s.pcs[t]) || Refuses(s, a, t)))
  {
    OneMoves(s, hashes, a);
    assert !s.pcs[a.t].Idle? || a.Call?;
    hide Apply, Shape;
    if a.t == t && a.Run? { OwnRefuses(s, hashes, t, a.ok); }
    if a.t == t && a.Return? { ReturnIdles(s, hashes, t); }
  }

  lemma ReturnIdles(s: State, hashes: seq<nat>, t: nat)
    requires Shape(s) && Enabled(s, hashes, Return(t))
    ensures |Apply(s, hashes, Return(t)).pcs| == |s.pcs| && Apply(s, hashes, Return(t)).pcs[t] == Idle
  {
    hide Shape;
  }

  lemma OwnRefuses(s: State, hashes: seq<nat>, t: nat, ok: bool)
    requires Shape(s) && Enabled(s, hashes, Run(t, ok))
    ensures var s' := Apply(s, hashes, Run(t, ok));
            |s'.pcs| == |s.pcs| && (Refused(s'.pcs[t]) <==> Refused(s.pcs[t]) || Refuses(s, Run(t, ok), t))
  {
    assert Shape(s);
    hide Rem, Grown, Shape, Slot;
  }

  /** Thread `t` is still in the call that it made in step `i`. */
  ghost predicate InCall(states: seq<State>, actions: seq<Action>, i: nat, j: nat, t: nat) {
    i < |actions| && actions[i] == Call(t) && i < j < |states| && forall k :: i < k <= j ==> t < |states[k].pcs| && !states[k].pcs[t].Idle?
  }

  ghost predicate RefusedBetween(states: seq<State>, actions: seq<Action>, i: nat, j: nat, t: nat)
    requires j <= |actions| && j <= |states|
  {
    exists k :: i < k < j && Refuses(states[k], actions[k], t)
  }

  /** A call returns nullptr if and only if, during it, the allocation of a larger table or
      of the producer was refused. */
  lemma {:induction false} NullIffRefused(hashes: seq<nat>, states: seq<State>, actions: seq<Action>, i: nat, j: nat, t: nat)
    requires IsRun(hashes, states, actions) && InCall(states, actions, i, j, t)
    ensures Refused(states[j].pcs[t]) <==> RefusedBetween(states, actions, i, j, t)
    ensures states[j].pcs[t].Done? ==> (states[j].pcs[t].result.None? <==> RefusedBetween(states, actions, i, j, t))
    decreases j
  {
    hide Shape, Enabled, Apply, Refuses;
    var s, a := states[j - 1], actions[j - 1];
    assert IsStep(s, hashes, a, states[j]);
    if j == i + 1 {
      CallBegins(s, hashes, t);
    } else {
      NullIffRefused(hashes, states, actions, i, j - 1, t);
      StepRefuses(s, hashes, a, t);
    }
  }

  lemma CallBegins(s: State, hashes: seq<nat>, t: nat)
    requires Shape(s) && Enabled(s, hashes, Call(t))
    ensures Apply(s, hashes, Call(t)).pcs[t] == Load
  {
  }

  // ------------------------------------------------------------------ a call alone

  /** The resize lock is held by some thread. */
  ghost predicate LockHeld(s: State) {
    s.resizing ==> exists t :: 0 <= t < |s.pcs| && Locked(s.pcs[t])
  }

  lemma StepLockHeld(s: State, hashes: seq<nat>, a: Action)
    requires Shape(s) && Enabled(s, hashes, a) && LockHeld(s)
    ensures LockHeld(Apply(s, hashes, a))
  {
    hide Rem, Grown;
    var s' := Apply(s, hashes, a);
    if s'.resizing && s.resizing {
      var u :| 0 <= u < |s.pcs| && Locked(s.pcs[u]);
      assert Locked(s'.pcs[u]);
    } else if s'.resizing {
      assert Locked(s'.pcs[a.t]);
    }
  }

  lemma {:induction false} RunLockHeld(hashes: seq<nat>, states: seq<State>, actions: seq<Action>, i: nat)
    requires IsRun(hashes, states, actions) && i < |states|
    ensures LockHeld(states[i])
  {
    hide Apply, Shape, Enabled;
    if i > 0 {
      RunLockHeld(hashes, states, actions, i - 1);
      assert IsStep(states[i - 1], hashes, actions[i - 1], states[i]);
      StepLockHeld(states[i - 1], hashes, actions[i - 1]);
    }
  }

  /** Where a call is that is alone and has been refused nothing. */
  predicate AlonePlace(tables: seq<Table>, pc: Pc) {
    && !pc.Idle? && !Refused(pc) && !pc.LoadAgain? && PcShape(tables, pc)
    && (pc.Unlock? || pc.Room? ==> pc.n < tables[pc.main].capacity / 2)
  }

  /** Thread `t` is in a call, and no other thread is. */
  ghost predicate OnlyOne(s: State, t: nat) {
    && t < |s.pcs| && AlonePlace(s.tables, s.pcs[t])
    && (forall u :: 0 <= u < |s.pcs| && u != t ==> s.pcs[u].Idle?)
    && (s.resizing ==> Locked(s.pcs[t]))
  }

  /** How far the call has got; a number that falls from place to place. */
  function Stage(pc: Pc): nat {
    match pc
    case Load => 14
    case Probe(_, _, _) => 13
    case Count(_) => 12
    case TryLock(_, _) => 11
    case Reload(_) => 10
    case Allocate(_, _) => 9
    case Unlock(_, _) => 8
    case Room(_, _) => 7
    case Create(_, _) => 6
    case Add(_, _, _) => 5
    case AddCas(_, _, _) => 5
    case AddStore(_, _, _) => 4
    case Migrate(_, _, _) => 3
    case MigrateCas(_, _, _) => 3
    case MigrateStore(_, _, _) => 2
    case _ => 0
  }

  /** The table probed. */
  function Table(pc: Pc): nat {
    match pc
    case Probe(_, h, _) => h
    case _ => 0
  }

  /** The probes it can still make there, and whether it is about to claim the slot. */
  function ProbesLeft(s: State, pc: Pc): nat {
    match pc
    case Probe(_, h, i) => if h < |s.tables| && i < s.tables[h].capacity then s.tables[h].capacity - i else 0
    case Add(main, _, i) => if main < |s.tables| && i < s.tables[main].capacity then 2 * (s.tables[main].capacity - i) + 1 else 0
    case AddCas(main, _, i) => if main < |s.tables| && i < s.tables[main].capacity then 2 * (s.tables[main].capacity - i) else 0
    case Migrate(main, _, i) => if main < |s.tables| && i < s.tables[main].capacity then 2 * (s.tables[main].capacity - i) + 1 else 0
    case MigrateCas(main, _, i) => if main < |s.tables| && i < s.tables[main].capacity then 2 * (s.tables[main].capacity - i) else 0
    case _ => 0
  }

  ghost predicate Lower(a: State, b: State, t: nat)
    requires t < |a.pcs| && t < |b.pcs|
  {
    var p, q := a.pcs[t], b.pcs[t];
    || Stage(p) < Stage(q)
    || (Stage(p) == Stage(q) && Table(p) < Table(q))
    || (Stage(p) == Stage(q) && Table(p) == Table(q) && ProbesLeft(a, p) < ProbesLeft(b, q))
  }

  /** A probe lies within the table. */
  ghost predicate Within(s: State, pc: Pc) {
    && (pc.Probe? ==> pc.h < |s.tables| && pc.i < s.tables[pc.h].capacity)
    && (pc.Add? || pc.AddCas? || pc.Migrate? || pc.MigrateCas? ==> pc.main < |s.tables| && pc.i < s.tables[pc.main].capacity)
  }

  lemma WithinTable(s: State, hashes: seq<nat>, g: Ghost, t: nat)
    requires Inv(s, hashes, g) && t < |s.pcs|
    ensures Within(s, s.pcs[t])
  {
    hide Inv;
    if Probing(s.pcs[t]) { ProbesEnd(s, hashes, g, t); }
  }

  /** A step of the thread alone, with memory: it gets closer to its end. */
  lemma AloneGetsOn(s: State, hashes: seq<nat>, t: nat)
    requires Shape(s) && OnlyOne(s, t) && !s.pcs[t].Done? && Within(s, s.pcs[t]) && |hashes| == |s.pcs|
    ensures Enabled(s, hashes, Run(t, true))
    ensures var s' := Apply(s, hashes, Run(t, true)); OnlyOne(s', t) && Lower(s', s, t)
  {
    OneRunning(s, t);
    var pc := s.pcs[t];
    assert Enabled(s, hashes, Run(t, true)) && (s.resizing ==> Locked(pc)) && AlonePlace(s.tables, pc);
    OneMoves(s, hashes, Run(t, true));
    hide Within, Lower, Shape, Apply, AlonePlace;
    if pc.Probe? {
      ProbeGetsOn(s, hashes, t);
    } else if pc.Add? || pc.AddCas? || pc.AddStore? {
      AddGetsOn(s, hashes, t);
    } else if pc.Migrate? || pc.MigrateCas? || pc.MigrateStore? {
      MigrateGetsOn(s, hashes, t);
    } else if pc.Allocate? || pc.Unlock? || pc.Room? || pc.Create? {
      RoomGetsOn(s, hashes, t);
    } else {
      NoOtherPlace(s.tables, pc);
      CountGetsOn(s, hashes, t);
    }
  }

  lemma NoOtherPlace(tables: seq<Table>, pc: Pc)
    requires AlonePlace(tables, pc)
    ensures !pc.Idle? && !pc.NoTable? && !pc.NoTableUnlock? && !pc.NoProducer? && !pc.LoadAgain?
  {
  }

  lemma ProbeGetsOn(s: State, hashes: seq<nat>, t: nat)
    requires Shape(s) && Enabled(s, hashes, Run(t, true)) && AlonePlace(s.tables, s.pcs[t]) && (s.resizing ==> Locked(s.pcs[t]))
    requires s.pcs[t].Probe? && Within(s, s.pcs[t])
    ensures var s' := Apply(s, hashes, Run(t, true));
            t < |s'.pcs| && AlonePlace(s'.tables, s'.pcs[t]) && (s'.resizing ==> Locked(s'.pcs[t])) && Lower(s', s, t)
  {
    hide Rem;
    assert TableShape(s.tables[s.pcs[t].h], s.pcs[t].h);
  }

  lemma AddGetsOn(s: State, hashes: seq<nat>, t: nat)
    requires Shape(s) && Enabled(s, hashes, Run(t, true)) && AlonePlace(s.tables, s.pcs[t]) && (s.resizing ==> Locked(s.pcs[t]))
    requires (s.pcs[t].Add? || s.pcs[t].AddCas? || s.pcs[t].AddStore?) && Within(s, s.pcs[t])
    ensures var s' := Apply(s, hashes, Run(t, true));
            t < |s'.pcs| && AlonePlace(s'.tables, s'.pcs[t]) && (s'.resizing ==> Locked(s'.pcs[t])) && Lower(s', s, t)
  {
    hide Rem;
    assert TableShape(s.tables[s.pcs[t].main], s.pcs[t].main);
  }

  lemma MigrateGetsOn(s: State, hashes: seq<nat>, t: nat)
    requires Shape(s) && Enabled(s, hashes, Run(t, true)) && AlonePlace(s.tables, s.pcs[t]) && (s.resizing ==> Locked(s.pcs[t]))
    requires (s.pcs[t].Migrate? || s.pcs[t].MigrateCas? || s.pcs[t].MigrateStore?) && Within(s, s.pcs[t])
    ensures var s' := Apply(s, hashes, Run(t, true));
            t < |s'.pcs| && AlonePlace(s'.tables, s'.pcs[t]) && (s'.resizing ==> Locked(s'.pcs[t])) && Lower(s', s, t)
  {
    hide Rem;
    assert TableShape(s.tables[s.pcs[t].main], s.pcs[t].main);
  }

  lemma CountGetsOn(s: State, hashes: seq<nat>, t: nat)
    requires Shape(s) && Enabled(s, hashes, Run(t, true)) && AlonePlace(s.tables, s.pcs[t]) && (s.resizing ==> Locked(s.pcs[t]))
    requires (s.pcs[t].Load? || s.pcs[t].Count? || s.pcs[t].TryLock? || s.pcs[t].Reload?)
    ensures var s' := Apply(s, hashes, Run(t, true));
            t < |s'.pcs| && AlonePlace(s'.tables, s'.pcs[t]) && (s'.resizing ==> Locked(s'.pcs[t])) && Lower(s', s, t)
  {
    hide Rem, Grown, Slot;
  }

  lemma RoomGetsOn(s: State, hashes: seq<nat>, t: nat)
    requires Shape(s) && Enabled(s, hashes, Run(t, true)) && AlonePlace(s.tables, s.pcs[t]) && (s.resizing ==> Locked(s.pcs[t]))
    requires (s.pcs[t].Allocate? || s.pcs[t].Unlock? || s.pcs[t].Room? || s.pcs[t].Create?)
    ensures var s' := Apply(s, hashes, Run(t, true));
            t < |s'.pcs| && AlonePlace(s'.tables, s'.pcs[t]) && (s'.resizing ==> Locked(s'.pcs[t])) && Lower(s', s, t)
  {
    hide Rem, Grown, Slot;
  }

  function Alone(s: State, hashes: seq<nat>, t: nat, n: nat): State {
    if n == 0 then s
    else
      var s' := Alone(s, hashes, t, n - 1);
      if Shape(s') && Enabled(s', hashes, Run(t, true)) then Apply(s', hashes, Run(t, true)) else s'
  }

  lemma {:induction false} AloneFirst(s: State, hashes: seq<nat>, t: nat, n: nat)
    requires Shape(s) && Enabled(s, hashes, Run(t, true))
    ensures Alone(Apply(s, hashes, Run(t, true)), hashes, t, n) == Alone(s, hashes, t, n + 1)
  {
    hide Shape, Enabled, Apply;
    if n > 0 { AloneFirst(s, hashes, t, n - 1); }
  }

  lemma {:induction false} AloneComesToAnEnd(s: State, hashes: seq<nat>, g: Ghost, t: nat) returns (n: nat, g': Ghost)
    requires Inv(s, hashes, g) && OnlyOne(s, t)
    ensures var end := Alone(s, hashes, t, n);
            Inv(end, hashes, g') && OnlyOne(end, t) && end.pcs[t].Done? && end.pcs[t].result.Some?
    decreases Stage(if t < |s.pcs| then s.pcs[t] else Idle), Table(if t < |s.pcs| then s.pcs[t] else Idle), ProbesLeft(s, if t < |s.pcs| then s.pcs[t] else Idle)
  {
    n, g' := 0, g;
    if !s.pcs[t].Done? {
      InvShape(s, hashes, g);
      WithinTable(s, hashes, g, t);
      hide Inv, OnlyOne, Shape, Enabled, Apply, Stage, Table, ProbesLeft, Within;
      OneRunning(s, t);
      AloneGetsOn(s, hashes, t);
      var s' := Apply(s, hashes, Run(t, true));
      var g1 := StepInv(s, hashes, g, Run(t, true));
      OneRunning(s', t);
      n, g' := AloneComesToAnEnd(s', hashes, g1, t);
      AloneFirst(s, hashes, t, n);
      n := n + 1;
    }
  }

  lemma OneRunning(s: State, t: nat)
    requires OnlyOne(s, t)
    ensures t < |s.pcs|
  {
  }

  lemma InvShape(s: State, hashes: seq<nat>, g: Ghost)
    requires Inv(s, hashes, g)
    ensures Shape(s) && |hashes| == |s.pcs|
  {
  }

  /** Alone, and with memory, a call comes to an end with a producer: a new thread gets one,
      and a known thread the one it has. */
  lemma AloneGetsProducer(hashes: seq<nat>, states: seq<State>, actions: seq<Action>, i: nat, t: nat) returns (n: nat)
    requires IsRun(hashes, states, actions) && i < |states| && t < |states[i].pcs|
    requires forall u :: 0 <= u < |states[i].pcs| ==> states[i].pcs[u].Idle?
    ensures Shape(states[i]) && Enabled(states[i], hashes, Call(t))
    ensures var end := Alone(Apply(states[i], hashes, Call(t)), hashes, t, n);
            t < |end.pcs| && end.pcs[t].Done? && end.pcs[t].result.Some?
  {
    var s := states[i];
    var g := RunInv(hashes, states, actions, i);
    RunLockHeld(hashes, states, actions, i);
    InvShape(s, hashes, g);
    var s0 := Apply(s, hashes, Call(t));
    var g0 := StepInv(s, hashes, g, Call(t));
    assert OnlyOne(s0, t);
    hide Inv, OnlyOne, Apply, IsRun, Alone;
    var g';
    n, g' := AloneComesToAnEnd(s0, hashes, g0, t);
    OneRunning(Alone(s0, hashes, t, n), t);
  }
}
