/** The tasks the event loop runs are the tasks that were queued: each once, and all of
    them. A task is run where `loop` enters `Task`. */
module LooperTasks {
  import opened Looper

  /** Thread `t` puts a task into its stream. */
  predicate Queues(s: State, a: Action, t: nat) {
    a == AddStep(t) && t < |s.adds| && s.adds[t].Enqueue?
  }

  /** The loop goes on to run a task taken from the stream of thread `t`. */
  predicate Runs(s: State, a: Action, s': State, t: nat) {
    a.LoopStep? && s.loop.Scan? && s'.loop.Task? && s.loop.best == t
  }

  /** How many tasks thread `t` has queued before state `i`. */
  function Queued(states: seq<State>, actions: seq<Action>, t: nat, i: nat): nat
    requires i <= |actions| && |states| == |actions| + 1
  {
    if i == 0 then 0 else Queued(states, actions, t, i - 1) + (if Queues(states[i - 1], actions[i - 1], t) then 1 else 0)
  }

  /** How many tasks of thread `t` have been run before state `i`. */
  function RunOf(states: seq<State>, actions: seq<Action>, t: nat, i: nat): nat
    requires i <= |actions| && |states| == |actions| + 1
  {
    if i == 0 then 0
    else RunOf(states, actions, t, i - 1) + (if Runs(states[i - 1], actions[i - 1], states[i], t) then 1 else 0)
  }

  /** A scan has counted the non-empty streams it met, and the best has a task still. */
  ghost predicate ScanInv(s: State) {
    s.loop.Scan? ==>
      && (s.loop.found == 0 <==> s.loop.bestSize == 0)
      && (s.loop.found > 0 ==> s.loop.best < |s.streams| && s.streams[s.loop.best] >= s.loop.bestSize)
  }

  lemma StepScan(s: State, a: Action)
    requires Base(s) && ScanInv(s) && Enabled(s, a)
    ensures ScanInv(Apply(s, a))
  {
  }

  lemma {:induction false} RunScan(states: seq<State>, actions: seq<Action>, i: nat)
    requires IsRun(states, actions) && i < |states|
    ensures Base(states[i]) && ScanInv(states[i])
  {
    hide Apply, Base, Enabled, ScanInv, Shape;
    RunBase(states, actions, i);
    if i > 0 {
      RunScan(states, actions, i - 1);
      assert IsStep(states[i - 1], actions[i - 1], states[i]);
      StepScan(states[i - 1], actions[i - 1]);
    } else {
      ScanAtFirst(states[0]);
    }
  }

  lemma ScanAtFirst(s: State)
    requires exists threads: nat :: s == Initial(threads)
    ensures ScanInv(s)
  {
  }

  /** A step adds to a stream the task queued, and takes from it the task run; nothing else
      changes any stream. */
  lemma StepCounts(s: State, a: Action, t: nat)
    requires Base(s) && ScanInv(s) && Enabled(s, a) && t < |s.streams|
    ensures var s' := Apply(s, a);
            && |s'.streams| == |s.streams|
            && s'.streams[t] + (if Runs(s, a, s', t) then 1 else 0) == s.streams[t] + (if Queues(s, a, t) then 1 else 0)
  {
  }

  /** Every task queued is still in its stream or has been run: none is lost, none is run
      twice. */
  lemma {:induction false} TasksAreConserved(states: seq<State>, actions: seq<Action>, t: nat, i: nat)
    requires IsRun(states, actions) && i < |states| && t < |states[0].streams|
    ensures |states[i].streams| == |states[0].streams|
    ensures Queued(states, actions, t, i) == RunOf(states, actions, t, i) + states[i].streams[t]
  {
    hide Apply, Base, Enabled, ScanInv, Shape, Queues, Runs;
    if i == 0 {
      EmptyAtFirst(states[0], t);
    } else {
      TasksAreConserved(states, actions, t, i - 1);
      RunScan(states, actions, i - 1);
      assert IsStep(states[i - 1], actions[i - 1], states[i]);
      StepCounts(states[i - 1], actions[i - 1], t);
    }
  }

  lemma EmptyAtFirst(s: State, t: nat)
    requires exists threads: nat :: s == Initial(threads)
    ensures t < |s.streams| ==> s.streams[t] == 0
  {
  }

  /** When the loop, started cleanly or back from a poll since, is about to poll with the
      counter at zero and no thread about to write it, every task queued so far, by any
      thread, has been run. */
  lemma AllTasksAreRun(states: seq<State>, actions: seq<Action>, i: nat, t: nat)
    requires IsRun(states, actions) && i < |states| && Settled(states, actions, i) && t < |states[0].streams|
    requires states[i].loop == Poll && states[i].count == 0 && !Waking(states[i].adds)
    ensures RunOf(states, actions, t, i) == Queued(states, actions, t, i)
  {
    hide Settled, IsStep;
    TasksAreConserved(states, actions, t, i);
    if states[i].streams[t] > 0 {
      NoStrandedTask(states, actions, i, t);
      assert false;
    }
  }

  // ------------------------------------------------------------------ draining ends

  /** The state after the loop's thread alone has made `n` steps. */
  function Alone(s: State, n: nat): State {
    if n == 0 then s
    else
      var s' := Alone(s, n - 1);
      if Shape(s') && Enabled(s', LoopStep(false)) then Apply(s', LoopStep(false)) else s'
  }

  function Total(streams: seq<nat>): nat {
    if streams == [] then 0 else Total(streams[..|streams| - 1]) + streams[|streams| - 1]
  }

  lemma {:induction false} TotalLess(streams: seq<nat>, t: nat, n: nat)
    requires t < |streams|
    ensures Total(streams[t := n]) + streams[t] == Total(streams) + n
  {
    var k := |streams| - 1;
    if t < k {
      assert streams[t := n][..k] == streams[..k][t := n];
      TotalLess(streams[..k], t, n);
    } else {
      assert streams[t := n][..k] == streams[..k];
    }
  }

  /** Where the loop is within a round of the drain: a number that its steps lower. */
  function Stage(s: State): nat {
    match s.loop
    case Task => |s.list| + 4
    case Drain => |s.list| + 3
    case Scan(rest, _, _, _) => |rest| + 1
    case _ => 0
  }

  /** Draining: the loop's steps either lower the number of tasks, or the stage, until
      nothing is left. */
  lemma DrainStep(s: State)
    requires Base(s) && ScanInv(s) && s.adds[0].Not? && (s.loop.Drain? || s.loop.Scan? || s.loop.Task?)
    ensures Enabled(s, LoopStep(false))
    ensures var s' := Apply(s, LoopStep(false));
            && s'.adds == s.adds && s'.count == s.count
            && (s'.loop.Drain? || s'.loop.Scan? || s'.loop.Task? || s'.loop.End?)
            && (Total(s'.streams) < Total(s.streams) || (s'.streams == s.streams && Stage(s') < Stage(s)))
  {
    if s.loop.Scan? && (s.loop.found == 3 || s.loop.rest == []) && s.loop.found > 0 {
      TotalLess(s.streams, s.loop.best, s.streams[s.loop.best] - 1);
    }
  }

  lemma AloneStep(s: State, n: nat)
    requires Shape(s) && Enabled(s, LoopStep(false))
    ensures Alone(Apply(s, LoopStep(false)), n) == Alone(s, n + 1)
  {
    if n > 0 { AloneStep(s, n - 1); }
  }

  /** Left alone while it drains, the loop comes to the end of the drain with every stream
      empty. */
  lemma {:induction false} DrainEnds(s: State) returns (n: nat)
    requires Inv(s) && s.adds[0].Not? && (s.loop.Drain? || s.loop.Scan? || s.loop.Task?)
    requires s.count == 0 && !Waking(s.adds)
    ensures var end := Alone(s, n);
            Inv(end) && end.loop.End? && forall p :: 0 <= p < |end.streams| ==> end.streams[p] == 0
    decreases Total(s.streams), Stage(s)
  {
    hide Apply, Base, LoopInv, Enabled, Total, Stage, Waking;
    InvParts(s);
    DrainStep(s);
    var s' := Apply(s, LoopStep(false));
    StepInv(s, LoopStep(false));
    if s'.loop.End? {
      n := 1;
      InvParts(s');
      AloneStep(s, 0);
    } else {
      n := DrainEnds(s');
      AloneStep(s, n);
      n := n + 1;
    }
  }

  lemma InvParts(s: State)
    requires Inv(s)
    ensures Shape(s) && Base(s) && ScanInv(s)
    ensures s.loop.End? && s.count == 0 && !Waking(s.adds) ==> forall p :: 0 <= p < |s.streams| ==> s.streams[p] == 0
  {
  }

  // ------------------------------------------------------------------ the eventfd counter

  /** Thread `t` writes the eventfd. */
  predicate Writes(s: State, a: Action, t: nat) {
    a == AddStep(t) && t < |s.adds| && s.adds[t].Wake?
  }

  /** A task is queued that calls for a write: by another thread, or while tasks are run. */
  predicate QueuesToWake(s: State, a: Action, t: nat) {
    Queues(s, a, t) && (t != 0 || s.handling)
  }

  /** The loop reads the eventfd. */
  predicate Reads(s: State, a: Action) {
    a.LoopStep? && s.loop == Events(true)
  }

  function WritesOf(states: seq<State>, actions: seq<Action>, t: nat, i: nat): nat
    requires i <= |actions| && |states| == |actions| + 1
  {
    if i == 0 then 0 else WritesOf(states, actions, t, i - 1) + (if Writes(states[i - 1], actions[i - 1], t) then 1 else 0)
  }

  function QueuedToWake(states: seq<State>, actions: seq<Action>, t: nat, i: nat): nat
    requires i <= |actions| && |states| == |actions| + 1
  {
    if i == 0 then 0 else QueuedToWake(states, actions, t, i - 1) + (if QueuesToWake(states[i - 1], actions[i - 1], t) then 1 else 0)
  }

  lemma StepWrites(s: State, a: Action, t: nat)
    requires Shape(s) && Enabled(s, a) && t < |s.adds|
    ensures var s' := Apply(s, a);
            && |s'.adds| == |s.adds|
            && (if s'.adds[t].Wake? then 1 else 0) + (if Writes(s, a, t) then 1 else 0)
               == (if s.adds[t].Wake? then 1 else 0) + (if QueuesToWake(s, a, t) then 1 else 0)
  {
  }

  /** Each thread writes the eventfd once for each task it queues that calls for it: it has
      done so, or is about to. */
  lemma {:induction false} WritesMatch(states: seq<State>, actions: seq<Action>, t: nat, i: nat)
    requires IsRun(states, actions) && i < |states| && t < |states[0].adds|
    ensures |states[i].adds| == |states[0].adds|
    ensures WritesOf(states, actions, t, i) + (if states[i].adds[t].Wake? then 1 else 0) == QueuedToWake(states, actions, t, i)
  {
    hide Apply, Enabled, Shape, Writes, QueuesToWake;
    if i == 0 {
      NobodyAtFirst(states[0]);
    } else {
      WritesMatch(states, actions, t, i - 1);
      assert IsStep(states[i - 1], actions[i - 1], states[i]);
      StepWrites(states[i - 1], actions[i - 1], t);
    }
  }

  lemma NobodyAtFirst(s: State)
    requires exists threads: nat :: s == Initial(threads)
    ensures s.count == 0 && forall t :: 0 <= t < |s.adds| ==> s.adds[t].Not?
  {
  }

  predicate SomeoneWrites(s: State, a: Action) {
    a.AddStep? && Writes(s, a, a.t)
  }

  /** The writes of all threads since the loop last read the eventfd. */
  function SinceRead(states: seq<State>, actions: seq<Action>, i: nat): nat
    requires i <= |actions| && |states| == |actions| + 1
  {
    if i == 0 || Reads(states[i - 1], actions[i - 1]) then 0
    else SinceRead(states, actions, i - 1) + (if SomeoneWrites(states[i - 1], actions[i - 1]) then 1 else 0)
  }

  lemma StepCounter(s: State, a: Action)
    requires Shape(s) && Enabled(s, a) && s.count <= MAX_COUNT
    ensures Apply(s, a).count ==
            if Reads(s, a) then 0
            else if SomeoneWrites(s, a) && s.count < MAX_COUNT then s.count + 1
            else s.count
  {
  }

  /** The counter is the number of writes since the last read, up to its largest value: a
      wake-up is neither lost nor repeated. */
  lemma {:induction false} CounterIsWrites(states: seq<State>, actions: seq<Action>, i: nat)
    requires IsRun(states, actions) && i < |states|
    ensures states[i].count == if SinceRead(states, actions, i) <= MAX_COUNT then SinceRead(states, actions, i) else MAX_COUNT
  {
    hide Apply, Enabled, Shape, SomeoneWrites, Reads;
    if i == 0 {
      NobodyAtFirst(states[0]);
    } else {
      CounterIsWrites(states, actions, i - 1);
      assert IsStep(states[i - 1], actions[i - 1], states[i]);
      StepCounter(states[i - 1], actions[i - 1]);
    }
  }
}
