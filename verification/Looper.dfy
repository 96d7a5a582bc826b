/** The event loop and its task queue: tasks added by any thread, the eventfd that wakes
    the loop, and the loop that polls, handles events and drains. Thread 0 is the loop's
    own. The queue is the one of Producer*.dfy: one stream per adding thread, and a
    `try_dequeue` that looks through the list of streams. */
module Looper {

  /** The largest value of an eventfd counter. */
  const MAX_COUNT: nat := 0xFFFF_FFFF_FFFF_FFFE

  /** A thread inside `AddTask`. */
  datatype Add = Not | Register | Enqueue | Wake

  datatype Loop =
    | Setup
    | Poll
    /** Handlers of the active events run; `wake` if the eventfd is still to be read. */
    | Events(wake: bool)
    | Begin
    | Drain
    /** `try_dequeue` has still to look at the streams `rest`; it has seen `found`
        non-empty ones, the largest being `best`. */
    | Scan(rest: seq<nat>, found: nat, best: nat, bestSize: nat)
    | Task
    | End
    | Stopped

  /** `streams[t]` counts the tasks thread `t` has enqueued and the loop has not taken;
      `list` holds the threads that have a stream, newest first. */
  datatype State = State(streams: seq<nat>, list: seq<nat>, count: nat, handling: bool, loop: Loop, adds: seq<Add>)

  datatype Action =
    | AddTask(t: nat)
    | AddStep(t: nat)
    | Start
    | Return(wake: bool)
    | LoopStep(quit: bool)

  function Initial(threads: nat): State {
    State(seq(threads + 1, _ => 0), [], 0, false, Setup, seq(threads + 1, _ => Not))
  }

  predicate Shape(s: State) {
    && |s.adds| == |s.streams| > 0
    && (s.loop.Scan? ==> s.loop.best < |s.streams| && forall k :: 0 <= k < |s.loop.rest| ==> s.loop.rest[k] < |s.streams|)
    && (forall k :: 0 <= k < |s.list| ==> s.list[k] < |s.streams|)
  }

  /** The loop's thread adds tasks before `Start`, in an event handler, or in a task. */
  predicate Enabled(s: State, a: Action) {
    match a
    case AddTask(t) => t < |s.adds| && s.adds[t].Not? && (t == 0 ==> s.loop.Setup? || s.loop.Events? || s.loop.Task?)
    case AddStep(t) => t < |s.adds| && !s.adds[t].Not?
    case Start => s.loop.Setup? && |s.adds| > 0 && s.adds[0].Not?
    case Return(wake) => s.loop.Poll? && (wake ==> s.count > 0)
    case LoopStep(_) =>
      && |s.adds| > 0 && s.adds[0].Not?
      && !s.loop.Setup? && !s.loop.Poll? && !s.loop.Stopped?
  }

  function SetAdd(s: State, t: nat, a: Add): State
    requires t < |s.adds|
  {
    s.(adds := s.adds[t := a])
  }

  function Apply(s: State, a: Action): State
    requires Shape(s) && Enabled(s, a)
  {
    match a
    case AddTask(t) => SetAdd(s, t, if t in s.list then Enqueue else Register)
    case AddStep(t) =>
      (match s.adds[t]
       case Register => SetAdd(s, t, Enqueue).(list := [t] + s.list)
       case Enqueue =>
         SetAdd(s, t, if t != 0 || s.handling then Wake else Not).(streams := s.streams[t := s.streams[t] + 1])
       case _ => SetAdd(s, t, Not).(count := if s.count < MAX_COUNT then s.count + 1 else s.count))
    case Start => s.(loop := Poll)
    case Return(wake) => s.(loop := Events(wake))
    case LoopStep(quit) => Advance(s, quit)
  }

  function Advance(s: State, quit: bool): State
    requires Shape(s) && !s.loop.Setup? && !s.loop.Poll? && !s.loop.Stopped?
  {
    match s.loop
    case Events(wake) => if wake then s.(count := 0, loop := Events(false)) else s.(loop := Begin)
    case Begin => s.(handling := true, loop := Drain)
    case Drain => s.(loop := Scan(s.list, 0, 0, 0))
    case Scan(rest, found, best, bestSize) =>
      if found == 3 || rest == [] then
        if found == 0 then s.(loop := End)
        else s.(streams := s.streams[best := Less(s.streams[best])], loop := Task)
      else
        var size := s.streams[rest[0]];
        if size == 0 then s.(loop := Scan(rest[1..], found, best, bestSize))
        else if size > bestSize then s.(loop := Scan(rest[1..], found + 1, rest[0], size))
        else s.(loop := Scan(rest[1..], found + 1, best, bestSize))
    case Task => s.(loop := Drain)
    case End => s.(handling := false, loop := if quit then Stopped else Poll)
  }

  function Less(n: nat): nat {
    if n > 0 then n - 1 else 0
  }

  // ------------------------------------------------------------------ invariant

  ghost predicate Waking(adds: seq<Add>) {
    exists t :: 0 < t < |adds| && adds[t].Wake?
  }

  /** The loop will be woken: the counter is positive, or some thread is between its
      enqueue and its write. */
  ghost predicate Signalled(s: State) {
    s.count > 0 || Waking(s.adds)
  }

  /** Every non-empty stream is yet to be looked at, unless the loop will be woken. */
  ghost predicate NoneMissed(s: State, rest: seq<nat>) {
    forall p: nat :: p < |s.streams| && s.streams[p] > 0 ==> p in rest || Signalled(s)
  }

  ghost predicate Base(s: State) {
    && Shape(s)
    && (forall p: nat :: p < |s.streams| && s.streams[p] > 0 ==> p in s.list)
    && (forall t: nat :: t < |s.adds| && (s.adds[t].Enqueue? || s.adds[t].Wake?) ==> t in s.list)
    && (!s.adds[0].Not? ==> s.loop.Setup? || s.loop.Events? || s.loop.Task?)
    && (s.handling <==> s.loop.Drain? || s.loop.Scan? || s.loop.Task? || s.loop.End?)
    && (s.adds[0].Wake? ==> s.handling)
  }

  ghost predicate LoopInv(s: State)
    requires Shape(s)
  {
    match s.loop
    case Poll => NoneMissed(s, [])
    case End => NoneMissed(s, [])
    case Scan(rest, found, best, bestSize) =>
      && (found == 0 ==> NoneMissed(s, rest))
      && (found == 0 <==> bestSize == 0)
      && (found > 0 ==> s.streams[best] >= bestSize)
    case _ => true
  }

  ghost predicate Inv(s: State) {
    Base(s) && LoopInv(s) && !s.loop.Setup?
  }

  /** A task of another thread is queued. */
  ghost predicate Foreign(s: State) {
    exists p :: 0 < p < |s.streams| && s.streams[p] > 0
  }

  /** Before `Start`, what other threads queue is signalled, and nothing else is. */
  ghost predicate SetupInv(s: State) {
    Base(s) && s.loop.Setup? && (Foreign(s) <==> Signalled(s))
  }

  lemma InitialSetup(threads: nat)
    ensures SetupInv(Initial(threads))
  {
  }

  lemma StepBase(s: State, a: Action)
    requires Base(s) && Enabled(s, a)
    ensures Base(Apply(s, a))
  {
    if a.AddTask? || a.AddStep? { AddBase(s, a); }
  }

  lemma AddBase(s: State, a: Action)
    requires Base(s) && Enabled(s, a) && (a.AddTask? || a.AddStep?)
    ensures Base(Apply(s, a))
  {
  }

  /** A signal outlasts every adding step, and a thread about to write is one. */
  lemma SignalKept(s: State, a: Action)
    requires Base(s) && Enabled(s, a) && (a.AddTask? || a.AddStep?)
    ensures Signalled(s) ==> Signalled(Apply(s, a))
    ensures a.t > 0 && Apply(s, a).adds[a.t].Wake? ==> Signalled(Apply(s, a))
  {
    var s', t := Apply(s, a), a.t;
    if s.count == 0 && Waking(s.adds) {
      var u :| 0 < u < |s.adds| && s.adds[u].Wake?;
      assert u != t ==> s'.adds[u].Wake?;
    }
    assert t > 0 && s'.adds[t].Wake? ==> Waking(s'.adds);
  }

  /** Only the enqueue of another thread adds to what is signalled. */
  lemma StepSetup(s: State, a: Action)
    requires SetupInv(s) && Enabled(s, a) && !a.Start?
    ensures SetupInv(Apply(s, a))
  {
    var s', t := Apply(s, a), a.t;
    StepBase(s, a);
    SignalKept(s, a);
    if Foreign(s) {
      var p :| 0 < p < |s.streams| && s.streams[p] > 0;
      assert s'.streams[p] > 0;
    }
    if t > 0 && s.adds[t].Enqueue? {
      assert s'.streams[t] > 0;
    } else {
      assert forall p :: 0 < p < |s.streams| ==> s'.streams[p] == s.streams[p];
      assert s.adds[t].Wake? ==> t > 0 && Waking(s.adds);
      assert !s'.adds[t].Wake?;
      assert forall u :: 0 < u < |s.adds| && s'.adds[u].Wake? ==> s.adds[u].Wake?;
    }
  }

  /** Adding tasks never hides one: the adder is in the list before it enqueues, and
      about to write once it has. */
  lemma StepAdd(s: State, a: Action)
    requires Inv(s) && Enabled(s, a) && (a.AddTask? || a.AddStep?)
    ensures Inv(Apply(s, a))
  {
    StepBase(s, a);
    SignalKept(s, a);
    hide Signalled, Waking;
  }

  /** The loop's own steps: a scan that finds nothing has missed nothing, and nothing
      resets the counter between the scan and the next poll. */
  lemma StepLoop(s: State, a: Action)
    requires Inv(s) && Enabled(s, a) && (a.Return? || a.LoopStep?)
    ensures Inv(Apply(s, a))
  {
    var s' := Apply(s, a);
    assert s'.adds == s.adds;
    if s.loop.Scan? && s.loop.rest != [] {
      assert forall p :: p in s.loop.rest ==> p == s.loop.rest[0] || p in s.loop.rest[1..];
    }
  }

  lemma StepInv(s: State, a: Action)
    requires Inv(s) && Enabled(s, a)
    ensures Inv(Apply(s, a))
  {
    if a.AddTask? || a.AddStep? { StepAdd(s, a); } else { StepLoop(s, a); }
  }

  // ------------------------------------------------------------------ runs

  ghost predicate IsStep(s: State, a: Action, s': State) {
    Shape(s) && Enabled(s, a) && s' == Apply(s, a)
  }

  /** A run from the construction of the loop, through `Start` if it comes to that. */
  ghost predicate IsRun(states: seq<State>, actions: seq<Action>) {
    && |states| == |actions| + 1
    && (exists threads: nat :: states[0] == Initial(threads))
    && (forall i :: 0 <= i < |actions| ==> IsStep(states[i], actions[i], states[i + 1]))
  }

  lemma {:induction false} RunBase(states: seq<State>, actions: seq<Action>, i: nat)
    requires IsRun(states, actions) && i < |states|
    ensures Base(states[i])
    ensures states[i].loop.Setup? ==> SetupInv(states[i])
  {
    if i == 0 {
      var threads: nat :| states[0] == Initial(threads);
      InitialSetup(threads);
    } else {
      RunBase(states, actions, i - 1);
      assert IsStep(states[i - 1], actions[i - 1], states[i]);
      StepBase(states[i - 1], actions[i - 1]);
      if states[i].loop.Setup? {
        StepSetup(states[i - 1], actions[i - 1]);
      }
    }
  }

  // ------------------------------------------------------------------ starting

  /** What the caller of `Start` can see: the loop's thread has queued nothing, or some
      other thread has a task in the queue. */
  ghost predicate Clean(s: State)
    requires |s.streams| > 0
  {
    s.streams[0] == 0 || exists p :: 0 < p < |s.streams| && s.streams[p] > 0
  }

  /** A task is queued, and all that can happen is that other threads go on to queue
      tasks of their own, or that an event comes which has nothing to do with the queue. */
  ghost predicate Stranded(s: State) {
    && s.loop == Poll && (exists p :: 0 <= p < |s.streams| && s.streams[p] > 0)
    && (forall a :: Enabled(s, a) ==>
          (a.AddTask? && a.t != 0) || (a.AddStep? && a.t != 0 && !s.adds[a.t].Wake?) || a == Return(false))
  }

  /** In every run, `Start` establishes the invariant of the loop if it is called in a
      clean state, and otherwise strands the tasks that are queued. */
  lemma StartIffClean(states: seq<State>, actions: seq<Action>, k: nat)
    requires IsRun(states, actions) && k < |actions| && actions[k] == Start
    ensures |states[k].streams| > 0
    ensures Inv(states[k + 1]) <==> Clean(states[k])
    ensures Stranded(states[k + 1]) <==> !Clean(states[k])
  {
    RunBase(states, actions, k);
    var s, s' := states[k], states[k + 1];
    assert IsStep(s, Start, s');
    StepBase(s, Start);
    assert Signalled(s') <==> Signalled(s);
    if Clean(s) {
      if Stranded(s') {
        assert Enabled(s', Return(true)) <==> s'.count > 0;
        if s'.count == 0 {
          var u :| 0 < u < |s.adds| && s.adds[u].Wake?;
          assert Enabled(s', AddStep(u));
        }
      }
    } else {
      assert !Signalled(s) && s'.streams[0] > 0;
    }
  }

  /** Adding a task from the loop's own thread before `Start` strands it. */
  lemma EarlyTaskIsStranded(threads: nat)
    ensures var s0 := Initial(threads);
            var s1 := Apply(s0, AddTask(0));
            var s2 := Apply(s1, AddStep(0));
            var s3 := Apply(s2, AddStep(0));
            Enabled(s3, Start) && Stranded(Apply(s3, Start))
  {
    var s0 := Initial(threads);
    var s2 := Apply(Apply(s0, AddTask(0)), AddStep(0));
    var s4 := Apply(Apply(s2, AddStep(0)), Start);
    assert s4.adds[0].Not? && forall t :: 0 < t < |s4.adds| ==> s4.adds[t].Not?;
    assert s4.streams[0] == 1;
  }

  // ------------------------------------------------------------------ no task is stranded

  /** Up to state `i`, if the loop was started at all, then from a clean state, or it has
      come back from a poll since. */
  ghost predicate Settled(states: seq<State>, actions: seq<Action>, i: nat)
    requires |states| == |actions| + 1 && i < |states|
  {
    forall k :: 0 <= k < i && actions[k] == Start ==>
      && |states[k].streams| > 0
      && (Clean(states[k]) || exists j :: k < j < i && actions[j].Return?)
  }

  lemma {:induction false} RunInv(states: seq<State>, actions: seq<Action>, i: nat)
    requires IsRun(states, actions) && i < |states| && Settled(states, actions, i) && !states[i].loop.Setup?
    ensures Inv(states[i])
  {
    RunBase(states, actions, i);
    if i > 0 {
      var s, a := states[i - 1], actions[i - 1];
      assert IsStep(s, a, states[i]);
      assert s.loop.Setup? ==> a == Start;
      if a == Start {
        StartIffClean(states, actions, i - 1);
      } else if !a.Return? {
        hide Inv, Base, Clean, Apply, Shape, Enabled;
        RunInv(states, actions, i - 1);
        StepInv(s, a);
      }
    }
  }

  /** Whenever the loop is about to poll and a task is queued, the counter is positive or
      a thread is about to write it: in every run in which the loop was started from a
      clean state, and in every other one from the first return of poll on. */
  lemma NoStrandedTask(states: seq<State>, actions: seq<Action>, i: nat, p: nat)
    requires IsRun(states, actions) && i < |states| && Settled(states, actions, i)
    requires states[i].loop == Poll && p < |states[i].streams| && states[i].streams[p] > 0
    ensures states[i].count > 0 || exists t :: 0 < t < |states[i].adds| && states[i].adds[t].Wake?
  {
    RunInv(states, actions, i);
  }
}
