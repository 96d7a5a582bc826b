/** The open-addressed table from thread ids to implicit producers, which is resized
    while others probe it: get_or_add_implicit_producer, one shared access per step.
    Thread `t` has id `t`; `hashes[t]` is its hashed id. */
module ProducerHash {
  import opened Basics
  import opened Circular

  datatype Key = Empty | Id(t: nat)

  /** `prev` is the table this one superseded. */
  datatype Table = Table(capacity: nat, keys: seq<Key>, values: seq<nat>, prev: Option<nat>)

  datatype Pc =
    | Idle
    | Load
    /** The `i`-th probe of table `h`; `main` is the table loaded as the main one. */
    | Probe(main: nat, h: nat, i: nat)
    | Migrate(main: nat, value: nat, i: nat)
    | MigrateCas(main: nat, value: nat, i: nat)
    | MigrateStore(main: nat, slot: nat, value: nat)
    | Count(main: nat)
    | TryLock(main: nat, n: nat)
    // holding the resize lock
    | Reload(n: nat)
    | Allocate(main: nat, n: nat)
    | NoTable
    | NoTableUnlock
    | Unlock(main: nat, n: nat)
    | Room(main: nat, n: nat)
    | LoadAgain(n: nat)
    | Create(main: nat, n: nat)
    | NoProducer
    | Add(main: nat, p: nat, i: nat)
    | AddCas(main: nat, p: nat, i: nat)
    | AddStore(main: nat, slot: nat, p: nat)
    | Done(result: Option<nat>)

  /** `producers` counts the producers created; `resizing` is the resize lock. */
  datatype State = State(tables: seq<Table>, count: nat, resizing: bool, producers: nat, pcs: seq<Pc>)

  /** `ok` answers an allocation. */
  datatype Action =
    | Call(t: nat)
    | Run(t: nat, ok: bool)
    | Return(t: nat)

  function EmptyTable(capacity: nat, prev: Option<nat>): Table {
    Table(capacity, seq(capacity, _ => Empty), seq(capacity, _ => 0), prev)
  }

  function Initial(initialBits: nat, threads: nat): State {
    State([EmptyTable(Pow2(initialBits), None)], 0, false, 0, seq(threads, _ => Idle))
  }

  /** Three quarters of the capacity. */
  function Limit(capacity: nat): nat {
    capacity / 2 + capacity / 4
  }

  /** The doubling loop of the resize. */
  function Grown(capacity: nat, n: nat): (r: nat)
    requires capacity > 0
    ensures r >= capacity && n < r / 2
    decreases if n >= capacity / 2 then 2 * n + 2 - capacity else 0
  {
    if n >= capacity / 2 then Grown(2 * capacity, n) else capacity
  }

  function Slot(capacity: nat, hash: nat, i: nat): (r: nat)
    requires capacity > 0
    ensures r < capacity
  {
    Rem(hash + i, capacity)
  }

  predicate TableShape(table: Table, h: nat) {
    && table.capacity > 0
    && |table.keys| == |table.values| == table.capacity
    && table.prev == (if h == 0 then None else Some(h - 1))
  }

  /** The table a place in the code refers to, if any. */
  function MainOf(pc: Pc): Option<nat> {
    match pc
    case Probe(main, _, _) => Some(main)
    case Migrate(main, _, _) => Some(main)
    case MigrateCas(main, _, _) => Some(main)
    case MigrateStore(main, _, _) => Some(main)
    case Count(main) => Some(main)
    case TryLock(main, _) => Some(main)
    case Allocate(main, _) => Some(main)
    case Unlock(main, _) => Some(main)
    case Room(main, _) => Some(main)
    case Create(main, _) => Some(main)
    case Add(main, _, _) => Some(main)
    case AddCas(main, _, _) => Some(main)
    case AddStore(main, _, _) => Some(main)
    case _ => None
  }

  predicate PcShape(tables: seq<Table>, pc: Pc) {
    && (MainOf(pc).Some? ==> MainOf(pc).value < |tables|)
    && (pc.Probe? ==> pc.h <= pc.main)
    && (pc.MigrateStore? || pc.AddStore? ==> pc.slot < |tables[pc.main].keys|)
  }

  predicate Shape(s: State) {
    && s.tables != []
    && (forall h :: 0 <= h < |s.tables| ==> TableShape(s.tables[h], h))
    && (forall h, j :: 0 <= h < j < |s.tables| ==> s.tables[h].capacity <= s.tables[j].capacity)
    && (forall t :: 0 <= t < |s.pcs| ==> PcShape(s.tables, s.pcs[t]))
  }

  predicate Enabled(s: State, hashes: seq<nat>, a: Action) {
    && |hashes| == |s.pcs|
    && a.t < |s.pcs|
    && (match a
        case Call(t) => s.pcs[t].Idle?
        case Run(t, _) => !s.pcs[t].Idle? && !s.pcs[t].Done?
        case Return(t) => s.pcs[t].Done?)
  }

  function SetPc(s: State, t: nat, pc: Pc): State
    requires t < |s.pcs|
  {
    s.(pcs := s.pcs[t := pc])
  }

  function SetKey(s: State, h: nat, slot: nat, key: Key): State
    requires h < |s.tables| && slot < |s.tables[h].keys|
  {
    s.(tables := s.tables[h := s.tables[h].(keys := s.tables[h].keys[slot := key])])
  }

  function SetValue(s: State, h: nat, slot: nat, value: nat): State
    requires h < |s.tables| && slot < |s.tables[h].values|
  {
    s.(tables := s.tables[h := s.tables[h].(values := s.tables[h].values[slot := value])])
  }

  function Apply(s: State, hashes: seq<nat>, a: Action): State
    requires Shape(s) && Enabled(s, hashes, a)
  {
    match a
    case Call(t) => SetPc(s, t, Load)
    case Return(t) => SetPc(s, t, Idle)
    case Run(t, ok) => Advance(s, hashes[t], t, ok)
  }

  function Lower(count: nat): nat {
    if count > 0 then count - 1 else 0
  }

  function Advance(s: State, hash: nat, t: nat, ok: bool): State
    requires Shape(s) && t < |s.pcs| && !s.pcs[t].Idle? && !s.pcs[t].Done?
  {
    var last := |s.tables| - 1;
    match s.pcs[t]
    case Load => SetPc(s, t, Probe(last, last, 0))
    case Probe(main, h, i) =>
      var slot := Slot(s.tables[h].capacity, hash, i);
      var key := s.tables[h].keys[slot];
      if key == Id(t) then
        SetPc(s, t, if h != main then Migrate(main, s.tables[h].values[slot], 0) else Done(Some(s.tables[h].values[slot])))
      else if key == Empty then
        SetPc(s, t, if s.tables[h].prev.Some? then Probe(main, s.tables[h].prev.value, 0) else Count(main))
      else SetPc(s, t, Probe(main, h, i + 1))
    case Migrate(main, value, i) =>
      var slot := Slot(s.tables[main].capacity, hash, i);
      SetPc(s, t, if s.tables[main].keys[slot] == Empty then MigrateCas(main, value, i) else Migrate(main, value, i + 1))
    case MigrateCas(main, value, i) =>
      var slot := Slot(s.tables[main].capacity, hash, i);
      if s.tables[main].keys[slot] == Empty then SetPc(SetKey(s, main, slot, Id(t)), t, MigrateStore(main, slot, value))
      else SetPc(s, t, Migrate(main, value, i + 1))
    case MigrateStore(main, slot, value) => SetPc(SetValue(s, main, slot, value), t, Done(Some(value)))
    case Count(main) => SetPc(s, t, TryLock(main, s.count + 1)).(count := s.count + 1)
    case TryLock(main, n) =>
      if n >= s.tables[main].capacity / 2 && !s.resizing then SetPc(s, t, Reload(n)).(resizing := true)
      else SetPc(s, t, Room(main, n))
    case Reload(n) =>
      SetPc(s, t, if n >= s.tables[last].capacity / 2 then Allocate(last, n) else Unlock(last, n))
    case Allocate(main, n) =>
      if ok then
        var table := EmptyTable(Grown(2 * s.tables[main].capacity, n), Some(main));
        SetPc(s, t, Unlock(|s.tables|, n)).(tables := s.tables + [table])
      else SetPc(s, t, NoTable)
    case NoTable => SetPc(s, t, NoTableUnlock).(count := Lower(s.count))
    case NoTableUnlock => SetPc(s, t, Done(None)).(resizing := false)
    case Unlock(main, n) => SetPc(s, t, Room(main, n)).(resizing := false)
    case Room(main, n) =>
      SetPc(s, t, if n < Limit(s.tables[main].capacity) then Create(main, n) else LoadAgain(n))
    case LoadAgain(n) => SetPc(s, t, TryLock(last, n))
    case Create(main, _) =>
      if ok then SetPc(s, t, Add(main, s.producers, 0)).(producers := s.producers + 1)
      else SetPc(s, t, NoProducer)
    case NoProducer => SetPc(s, t, Done(None)).(count := Lower(s.count))
    case Add(main, p, i) =>
      var slot := Slot(s.tables[main].capacity, hash, i);
      SetPc(s, t, if s.tables[main].keys[slot] == Empty then AddCas(main, p, i) else Add(main, p, i + 1))
    case AddCas(main, p, i) =>
      var slot := Slot(s.tables[main].capacity, hash, i);
      if s.tables[main].keys[slot] == Empty then SetPc(SetKey(s, main, slot, Id(t)), t, AddStore(main, slot, p))
      else SetPc(s, t, Add(main, p, i + 1))
    case AddStore(main, slot, p) => SetPc(SetValue(s, main, slot, p), t, Done(Some(p)))
  }

  // ------------------------------------------------------------------ invariant

  /** `order` lists the threads counted in implicitProducerHashCount, oldest first;
      `owner` maps the threads found in the tables to their producers. */
  datatype Ghost = Ghost(order: seq<nat>, owner: map<nat, nat>)

  /** Thread `t` is among the first `n - 1` counted. */
  ghost predicate Counted(order: seq<nat>, t: nat, n: nat) {
    exists k :: 0 <= k < |order| && order[k] == t && k + 1 < n
  }

  /** The first `i` probes for a hash meet ids other than `t`. */
  ghost predicate Walked(keys: seq<Key>, hash: nat, i: nat, t: nat) {
    forall d: nat :: d < i ==> MeetsOther(keys, hash, d, t)
  }

  ghost predicate MeetsOther(keys: seq<Key>, hash: nat, d: nat, t: nat) {
    |keys| > 0 && keys[Slot(|keys|, hash, d)] != Empty && keys[Slot(|keys|, hash, d)] != Id(t)
  }

  /** Slot `e` is where probing for `t` arrives after `d` other ids. */
  ghost predicate Reached(keys: seq<Key>, hash: nat, e: nat, d: nat, t: nat) {
    |keys| > 0 && d < |keys| && e == Slot(|keys|, hash, d) && Walked(keys, hash, d, t)
  }

  ghost predicate Reachable(keys: seq<Key>, hash: nat, e: nat, t: nat) {
    exists d: nat :: Reached(keys, hash, e, d, t)
  }

  predicate Storing(pc: Pc, h: nat, e: nat) {
    (pc.MigrateStore? || pc.AddStore?) && pc.main == h && pc.slot == e
  }

  ghost predicate KeyInv(table: Table, h: nat, hashes: seq<nat>, pcs: seq<Pc>, g: Ghost, e: nat) {
    e < |table.keys| == |table.values| && table.keys[e].Id? ==>
      var t := table.keys[e].t;
      && t < |hashes| == |pcs| && t in g.owner
      && Reachable(table.keys, hashes[t], e, t)
      && Counted(g.order, t, Limit(table.capacity))
      && (Storing(pcs[t], h, e) || table.values[e] == g.owner[t])
  }

  ghost predicate TableInv(table: Table, h: nat, hashes: seq<nat>, pcs: seq<Pc>, g: Ghost) {
    forall e: nat :: KeyInv(table, h, hashes, pcs, g, e)
  }

  ghost predicate In(table: Table, t: nat) {
    Id(t) in table.keys
  }

  ghost predicate AbsentFrom(tables: seq<Table>, t: nat, h: nat) {
    forall j :: h <= j < |tables| ==> !In(tables[j], t)
  }

  /** A thread has created a producer and not yet put it into a table. */
  predicate Brings(pc: Pc) {
    pc.Add? || pc.AddCas?
  }

  predicate Locked(pc: Pc) {
    pc.Reload? || pc.Allocate? || pc.NoTable? || pc.NoTableUnlock? || pc.Unlock?
  }

  predicate InCount(pc: Pc) {
    pc.TryLock? || pc.Reload? || pc.Allocate? || pc.NoTable? || pc.Unlock? || pc.Room? || pc.LoadAgain? || pc.Create? || pc.NoProducer? || pc.Add? || pc.AddCas?
  }

  ghost predicate PcInv(tables: seq<Table>, hash: nat, g: Ghost, t: nat, pc: Pc) {
    && PcShape(tables, pc)
    && (InCount(pc) ==> AbsentFrom(tables, t, 0) && t !in g.owner)
    && (match pc
        case Probe(_, h, i) => Walked(tables[h].keys, hash, i, t) && AbsentFrom(tables, t, h + 1)
        case Count(_) => AbsentFrom(tables, t, 0) && t !in g.owner
        case Migrate(main, value, i) => MigrateInv(tables, hash, g, t, main, value, i)
        case MigrateCas(main, value, i) => MigrateInv(tables, hash, g, t, main, value, i)
        case MigrateStore(main, slot, value) =>
          tables[main].keys[slot] == Id(t) && t in g.owner && g.owner[t] == value
        case TryLock(_, n) => Counted(g.order, t, n + 1)
        case Reload(n) => Counted(g.order, t, n + 1)
        case Allocate(main, n) => Counted(g.order, t, n + 1) && main == |tables| - 1
        case NoTable => t in g.order
        case Unlock(_, n) => Counted(g.order, t, n + 1)
        case Room(_, n) => Counted(g.order, t, n + 1)
        case LoadAgain(n) => Counted(g.order, t, n + 1)
        case Create(main, n) => Counted(g.order, t, n + 1) && n < Limit(tables[main].capacity)
        case NoProducer => t in g.order
        case Add(main, _, i) => Walked(tables[main].keys, hash, i, t) && Counted(g.order, t, Limit(tables[main].capacity))
        case AddCas(main, _, i) => Walked(tables[main].keys, hash, i, t) && Counted(g.order, t, Limit(tables[main].capacity))
        case AddStore(main, slot, p) =>
          tables[main].keys[slot] == Id(t) && t in g.owner && g.owner[t] == p
        case Done(result) => result.Some? ==> t in g.owner && g.owner[t] == result.value
        case _ => true)
  }

  ghost predicate MigrateInv(tables: seq<Table>, hash: nat, g: Ghost, t: nat, main: nat, value: nat, i: nat)
    requires main < |tables|
  {
    && t in g.owner && g.owner[t] == value
    && Walked(tables[main].keys, hash, i, t) && !In(tables[main], t)
    && Counted(g.order, t, Limit(tables[main].capacity))
  }

  ghost predicate Tables(tables: seq<Table>, hashes: seq<nat>, pcs: seq<Pc>, g: Ghost) {
    forall h :: 0 <= h < |tables| ==> TableInv(tables[h], h, hashes, pcs, g)
  }

  ghost predicate Pcs(tables: seq<Table>, hashes: seq<nat>, pcs: seq<Pc>, g: Ghost) {
    |hashes| == |pcs| && forall t :: 0 <= t < |pcs| ==> PcInv(tables, hashes[t], g, t, pcs[t])
  }

  ghost predicate Orders(order: seq<nat>, owner: map<nat, nat>, pcs: seq<Pc>) {
    && (forall i, j :: 0 <= i < j < |order| ==> order[i] != order[j])
    && (forall t: nat :: t in order <==> t in owner || (t < |pcs| && InCount(pcs[t])))
  }

  /** Every producer belongs to one thread at most. */
  ghost predicate Producers(owner: map<nat, nat>, producers: nat, pcs: seq<Pc>) {
    && (forall t <- owner :: owner[t] < producers)
    && (forall t <- owner, u <- owner :: t != u ==> owner[t] != owner[u])
    && (forall t :: 0 <= t < |pcs| && Brings(pcs[t]) ==> pcs[t].p < producers && pcs[t].p !in owner.Values)
    && (forall t, u :: 0 <= t < u < |pcs| && Brings(pcs[t]) && Brings(pcs[u]) ==> pcs[t].p != pcs[u].p)
  }

  /** A thread is found through the tables exactly when it has a producer. */
  ghost predicate Registered(tables: seq<Table>, owner: map<nat, nat>) {
    forall t <- owner :: exists h :: 0 <= h < |tables| && In(tables[h], t)
  }

  ghost predicate Lock(resizing: bool, pcs: seq<Pc>) {
    && (forall t :: 0 <= t < |pcs| && Locked(pcs[t]) ==> resizing)
    && (forall t, u :: 0 <= t < u < |pcs| ==> !(Locked(pcs[t]) && Locked(pcs[u])))
  }

  ghost predicate Inv(s: State, hashes: seq<nat>, g: Ghost) {
    && Shape(s)
    && s.count == |g.order|
    && Tables(s.tables, hashes, s.pcs, g)
    && Pcs(s.tables, hashes, s.pcs, g)
    && Orders(g.order, g.owner, s.pcs)
    && Producers(g.owner, s.producers, s.pcs)
    && Registered(s.tables, g.owner)
    && Lock(s.resizing, s.pcs)
  }

  lemma InitialInv(initialBits: nat, hashes: seq<nat>)
    ensures Inv(Initial(initialBits, |hashes|), hashes, Ghost([], map[]))
  {
  }

  // ------------------------------------------------------------------ probing

  /** Occupied slots stay occupied by the same ids. */
  lemma WalkedKept(keys: seq<Key>, slot: nat, t: nat, hash: nat, i: nat, u: nat)
    requires slot < |keys| && keys[slot] == Empty && Walked(keys, hash, i, u) && (u == t ==> i <= |keys| && slot == Slot(|keys|, hash, i))
    ensures Walked(keys[slot := Id(t)], hash, i, u)
  {
    hide Rem;
    var keys' := keys[slot := Id(t)];
    forall d: nat | d < i ensures MeetsOther(keys', hash, d, u) {
      assert MeetsOther(keys, hash, d, u);
    }
  }

  /** An empty slot is met within one round. */
  lemma EmptyWithinRound(keys: seq<Key>, hash: nat, i: nat, t: nat)
    requires |keys| > 0 && Walked(keys, hash, i, t) && keys[Slot(|keys|, hash, i)] == Empty
    ensures i < |keys|
  {
    hide Rem;
    var d: nat := if i >= |keys| then i - |keys| else 0;
    RemShift(hash + i, -1, |keys|);
    assert d < i ==> MeetsOther(keys, hash, d, t);
  }

  /** Probing that meets an empty slot has proved the id absent. */
  lemma NotHere(table: Table, h: nat, hashes: seq<nat>, pcs: seq<Pc>, g: Ghost, t: nat, i: nat)
    requires TableInv(table, h, hashes, pcs, g) && t < |hashes| && |table.keys| == |table.values| > 0
    requires Walked(table.keys, hashes[t], i, t) && table.keys[Slot(|table.keys|, hashes[t], i)] == Empty
    ensures !In(table, t)
  {
    hide Rem, Walked, Reached;
    forall e: nat | e < |table.keys| ensures table.keys[e] != Id(t) {
      assert KeyInv(table, h, hashes, pcs, g, e);
      if table.keys[e] == Id(t) {
        var d: nat :| Reached(table.keys, hashes[t], e, d, t);
        NotReached(table.keys, hashes[t], i, t, e, d);
      }
    }
  }

  lemma NotReached(keys: seq<Key>, hash: nat, i: nat, t: nat, e: nat, d: nat)
    requires |keys| > 0 && Walked(keys, hash, i, t) && keys[Slot(|keys|, hash, i)] == Empty && Reached(keys, hash, e, d, t)
    ensures keys[e] != Id(t)
  {
    hide Rem;
    assert d < i ==> MeetsOther(keys, hash, d, t);
    assert i < d ==> MeetsOther(keys, hash, i, t);
  }

  // ------------------------------------------------------------------ a thread moves

  lemma TablesMove(tables: seq<Table>, hashes: seq<nat>, pcs: seq<Pc>, g: Ghost, t: nat, pc: Pc)
    requires Tables(tables, hashes, pcs, g) && t < |pcs| && !pcs[t].MigrateStore? && !pcs[t].AddStore?
    ensures Tables(tables, hashes, pcs[t := pc], g)
  {
    hide Reachable, Counted;
    var pcs' := pcs[t := pc];
    forall h | 0 <= h < |tables| ensures TableInv(tables[h], h, hashes, pcs', g) {
      assert TableInv(tables[h], h, hashes, pcs, g);
      forall e: nat ensures KeyInv(tables[h], h, hashes, pcs', g, e) {
        assert KeyInv(tables[h], h, hashes, pcs, g, e);
      }
    }
  }

  /** Only one thread's place changes. */
  lemma Moves(s: State, hashes: seq<nat>, g: Ghost, t: nat, pc: Pc)
    requires Inv(s, hashes, g) && t < |s.pcs| && !s.pcs[t].MigrateStore? && !s.pcs[t].AddStore?
    requires PcShape(s.tables, pc) && PcInv(s.tables, hashes[t], g, t, pc)
    requires InCount(pc) == InCount(s.pcs[t]) && (Locked(pc) ==> Locked(s.pcs[t]))
    requires Brings(pc) ==> Brings(s.pcs[t]) && pc.p == s.pcs[t].p
    ensures Inv(SetPc(s, t, pc), hashes, g)
  {
    hide TableInv, TableShape, PcInv, Registered;
    TablesMove(s.tables, hashes, s.pcs, g, t, pc);
    OrdersMove(g.order, g.owner, s.pcs, t, pc);
    ProducersMove(g.owner, s.producers, s.pcs, t, pc);
    LockMove(s.resizing, s.pcs, t, pc);
  }

  lemma OrdersMove(order: seq<nat>, owner: map<nat, nat>, pcs: seq<Pc>, t: nat, pc: Pc)
    requires Orders(order, owner, pcs) && t < |pcs| && InCount(pc) == InCount(pcs[t])
    ensures Orders(order, owner, pcs[t := pc])
  {
  }

  lemma ProducersMove(owner: map<nat, nat>, producers: nat, pcs: seq<Pc>, t: nat, pc: Pc)
    requires Producers(owner, producers, pcs) && t < |pcs| && (Brings(pc) ==> Brings(pcs[t]) && pc.p == pcs[t].p)
    ensures Producers(owner, producers, pcs[t := pc])
  {
  }

  lemma LockMove(resizing: bool, pcs: seq<Pc>, t: nat, pc: Pc)
    requires Lock(resizing, pcs) && t < |pcs| && (Locked(pc) ==> Locked(pcs[t]))
    ensures Lock(resizing, pcs[t := pc])
  {
  }

  /** The slot a thread looks at, in a table of the current shape. */
  lemma AtTable(s: State, hashes: seq<nat>, g: Ghost, t: nat, h: nat)
    requires Inv(s, hashes, g) && t < |s.pcs| && h < |s.tables|
    ensures |hashes| == |s.pcs|
    ensures TableShape(s.tables[h], h) && TableInv(s.tables[h], h, hashes, s.pcs, g)
    ensures PcInv(s.tables, hashes[t], g, t, s.pcs[t]) && PcShape(s.tables, s.pcs[t])
  {
    hide TableInv, PcInv;
  }

  lemma WalkedOn(keys: seq<Key>, hash: nat, i: nat, t: nat)
    requires Walked(keys, hash, i, t) && MeetsOther(keys, hash, i, t)
    ensures Walked(keys, hash, i + 1, t)
  {
    hide MeetsOther;
  }

  lemma StepProbe(s: State, hashes: seq<nat>, g: Ghost, t: nat, ok: bool)
    requires Inv(s, hashes, g) && t < |s.pcs| && s.pcs[t].Probe?
    ensures Inv(Advance(s, hashes[t], t, ok), hashes, g)
  {
    hide Rem, Pcs, Tables, Orders, Producers, Lock, TableInv, Walked;
    var main, h, i := s.pcs[t].main, s.pcs[t].h, s.pcs[t].i;
    AtTable(s, hashes, g, t, h);
    var keys := s.tables[h].keys;
    var slot := Slot(|keys|, hashes[t], i);
    if keys[slot] == Id(t) {
      ProbeFinds(s, hashes, g, t, slot);
    } else if keys[slot] == Empty {
      NotHere(s.tables[h], h, hashes, s.pcs, g, t, i);
      if h > 0 {
        WalkedNone(s.tables[h - 1].keys, hashes[t], t);
      }
    } else {
      WalkedOn(keys, hashes[t], i, t);
    }
    Moves(s, hashes, g, t, Advance(s, hashes[t], t, ok).pcs[t]);
  }

  lemma WalkedNone(keys: seq<Key>, hash: nat, t: nat)
    ensures Walked(keys, hash, 0, t)
  {
  }

  /** A thread that finds its id finds its producer, and there is room for it in newer tables. */
  lemma ProbeFinds(s: State, hashes: seq<nat>, g: Ghost, t: nat, slot: nat)
    requires Inv(s, hashes, g) && t < |s.pcs| && s.pcs[t].Probe?
    requires s.pcs[t].h < |s.tables| && slot < |s.tables[s.pcs[t].h].keys| && s.tables[s.pcs[t].h].keys[slot] == Id(t)
    requires |s.tables[s.pcs[t].h].values| == |s.tables[s.pcs[t].h].keys|
    ensures t in g.owner && s.tables[s.pcs[t].h].values[slot] == g.owner[t]
    ensures s.pcs[t].main < |s.tables|
    ensures s.pcs[t].h != s.pcs[t].main ==> MigrateInv(s.tables, hashes[t], g, t, s.pcs[t].main, g.owner[t], 0)
  {
    hide Rem, Pcs, Orders, Producers, Lock, Reachable;
    var main, h := s.pcs[t].main, s.pcs[t].h;
    AtTable(s, hashes, g, t, h);
    assert KeyInv(s.tables[h], h, hashes, s.pcs, g, slot);
    assert s.tables[h].capacity <= s.tables[main].capacity;
    CountedMore(g.order, t, Limit(s.tables[h].capacity), Limit(s.tables[main].capacity));
  }

  lemma CountedMore(order: seq<nat>, t: nat, n: nat, n': nat)
    requires Counted(order, t, n) && n <= n'
    ensures Counted(order, t, n')
  {
  }

  /** Looking for an empty slot, or losing the race for one. */
  lemma StepSeek(s: State, hashes: seq<nat>, g: Ghost, t: nat, ok: bool)
    requires Inv(s, hashes, g) && t < |s.pcs|
    requires s.pcs[t].Migrate? || s.pcs[t].Add? || ((s.pcs[t].MigrateCas? || s.pcs[t].AddCas?) && Seen(s, hashes[t], t) != Empty)
    ensures Inv(Advance(s, hashes[t], t, ok), hashes, g)
  {
    hide Rem, Pcs, Tables, Orders, Producers, Lock, TableInv, Walked, Counted;
    var main, i := s.pcs[t].main, s.pcs[t].i;
    AtTable(s, hashes, g, t, main);
    var keys := s.tables[main].keys;
    if Seen(s, hashes[t], t) != Empty {
      SeekMeets(s, hashes, g, t);
      WalkedOn(keys, hashes[t], i, t);
    }
    Moves(s, hashes, g, t, Advance(s, hashes[t], t, ok).pcs[t]);
  }

  /** The key in the slot a thread is about to take. */
  function Seen(s: State, hash: nat, t: nat): Key
    requires Shape(s) && t < |s.pcs| && (s.pcs[t].Migrate? || s.pcs[t].Add? || s.pcs[t].MigrateCas? || s.pcs[t].AddCas?)
  {
    assert PcShape(s.tables, s.pcs[t]);
    var table := s.tables[s.pcs[t].main];
    table.keys[Slot(table.capacity, hash, s.pcs[t].i)]
  }

  lemma SeekMeets(s: State, hashes: seq<nat>, g: Ghost, t: nat)
    requires Inv(s, hashes, g) && t < |s.pcs|
    requires (s.pcs[t].Migrate? || s.pcs[t].Add? || s.pcs[t].MigrateCas? || s.pcs[t].AddCas?) && Seen(s, hashes[t], t) != Empty
    ensures s.pcs[t].main < |s.tables| && MeetsOther(s.tables[s.pcs[t].main].keys, hashes[t], s.pcs[t].i, t)
  {
    hide Rem, Pcs, Tables, Orders, Producers, Lock, TableInv, Walked, Counted;
    var main := s.pcs[t].main;
    AtTable(s, hashes, g, t, main);
    assert !In(s.tables[main], t);
  }

  // ------------------------------------------------------------------ taking a slot

  /** The state after thread `t` put its id in `slot`, with `p` as its producer. */
  lemma TakenTable(table: Table, h: nat, hashes: seq<nat>, pcs: seq<Pc>, g: Ghost, t: nat, slot: nat, i: nat, pc: Pc, p: nat)
    requires TableInv(table, h, hashes, pcs, g) && |table.keys| == |table.values| && t < |hashes| == |pcs|
    requires slot < |table.keys| && table.keys[slot] == Empty && slot == Slot(|table.keys|, hashes[t], i)
    requires Walked(table.keys, hashes[t], i, t) && Counted(g.order, t, Limit(table.capacity)) && !In(table, t)
    requires Storing(pc, h, slot) && (t in g.owner ==> g.owner[t] == p)
    ensures TableInv(table.(keys := table.keys[slot := Id(t)]), h, hashes, pcs[t := pc], g.(owner := g.owner[t := p]))
  {
    hide Rem, Counted, Walked;
    var table', pcs', g' := table.(keys := table.keys[slot := Id(t)]), pcs[t := pc], g.(owner := g.owner[t := p]);
    EmptyWithinRound(table.keys, hashes[t], i, t);
    WalkedKept(table.keys, slot, t, hashes[t], i, t);
    assert Reached(table'.keys, hashes[t], slot, i, t);
    forall e: nat ensures KeyInv(table', h, hashes, pcs', g', e) {
      assert KeyInv(table, h, hashes, pcs, g, e);
      if e < |table.keys| && e != slot && table.keys[e].Id? {
        var u := table.keys[e].t;
        var d: nat :| Reached(table.keys, hashes[u], e, d, u);
        WalkedKept(table.keys, slot, t, hashes[u], d, u);
        assert Reached(table'.keys, hashes[u], e, d, u);
      }
    }
  }

  /** Other tables do not mention the thread, or mention it with the same producer. */
  lemma OtherTable(table: Table, h: nat, hashes: seq<nat>, pcs: seq<Pc>, g: Ghost, t: nat, pc: Pc, p: nat)
    requires TableInv(table, h, hashes, pcs, g) && t < |pcs| && !pcs[t].MigrateStore? && !pcs[t].AddStore?
    requires if t in g.owner then g.owner[t] == p else !In(table, t)
    ensures TableInv(table, h, hashes, pcs[t := pc], g.(owner := g.owner[t := p]))
  {
    hide Reachable, Counted;
    var pcs', g' := pcs[t := pc], g.(owner := g.owner[t := p]);
    forall e: nat ensures KeyInv(table, h, hashes, pcs', g', e) {
      assert KeyInv(table, h, hashes, pcs, g, e);
    }
  }

  /** The others do not notice. */
  lemma OtherPc(tables: seq<Table>, hash: nat, g: Ghost, u: nat, pc: Pc, main: nat, slot: nat, t: nat, p: nat)
    requires PcInv(tables, hash, g, u, pc) && u != t && main < |tables| && slot < |tables[main].keys| && tables[main].keys[slot] == Empty
    ensures PcInv(tables[main := tables[main].(keys := tables[main].keys[slot := Id(t)])], hash, g.(owner := g.owner[t := p]), u, pc)
  {
    hide Rem, Counted, Walked;
    var tables' := tables[main := tables[main].(keys := tables[main].keys[slot := Id(t)])];
    forall j | 0 <= j < |tables| && !In(tables[j], u) ensures !In(tables'[j], u) {
    }
    forall j, i: nat | 0 <= j < |tables| && Walked(tables[j].keys, hash, i, u) ensures Walked(tables'[j].keys, hash, i, u) {
      if j == main { WalkedKept(tables[main].keys, slot, t, hash, i, u); }
    }
  }

  /** The pieces of the invariant after thread `t` put its id in a slot. */
  lemma SlotTaken(s: State, hashes: seq<nat>, g: Ghost, t: nat, slot: nat, pc: Pc, p: nat)
    requires Inv(s, hashes, g) && t < |s.pcs| && (s.pcs[t].MigrateCas? || s.pcs[t].AddCas?) && Seen(s, hashes[t], t) == Empty
    requires PcShape(s.tables, s.pcs[t]) && slot == Slot(s.tables[s.pcs[t].main].capacity, hashes[t], s.pcs[t].i)
    requires if s.pcs[t].MigrateCas? then p == s.pcs[t].value && pc == MigrateStore(s.pcs[t].main, slot, p)
             else p == s.pcs[t].p && pc == AddStore(s.pcs[t].main, slot, p)
    ensures slot < |s.tables[s.pcs[t].main].keys|
    ensures var s', g' := SetPc(SetKey(s, s.pcs[t].main, slot, Id(t)), t, pc), g.(owner := g.owner[t := p]);
            && Tables(s'.tables, hashes, s'.pcs, g') && Pcs(s'.tables, hashes, s'.pcs, g')
            && Shape(s') && Registered(s'.tables, g'.owner)
    ensures s.pcs[t].MigrateCas? ==> t in g.owner && g.owner[t] == p
    ensures s.pcs[t].AddCas? ==> t !in g.owner
  {
    hide Rem, Orders, Producers, Lock, TableInv, Walked, Counted, Registered;
    var main, i := s.pcs[t].main, s.pcs[t].i;
    AtTable(s, hashes, g, t, main);
    var s', g' := SetPc(SetKey(s, main, slot, Id(t)), t, pc), g.(owner := g.owner[t := p]);
    forall h | 0 <= h < |s'.tables| ensures TableInv(s'.tables[h], h, hashes, s'.pcs, g') {
      AtTable(s, hashes, g, t, h);
      if h == main {
        TakenTable(s.tables[main], main, hashes, s.pcs, g, t, slot, i, pc, p);
      } else {
        OtherTable(s.tables[h], h, hashes, s.pcs, g, t, pc, p);
      }
    }
    forall u | 0 <= u < |s.pcs| && u != t ensures PcInv(s'.tables, hashes[u], g', u, s'.pcs[u]) {
      AtTable(s, hashes, g, u, main);
      OtherPc(s.tables, hashes[u], g, u, s.pcs[u], main, slot, t, p);
    }
    assert s'.tables[main].keys[slot] == Id(t);
    assert PcInv(s'.tables, hashes[t], g', t, pc);
    RegisteredKept(s.tables, g.owner, main, slot, t, p);
  }

  lemma RegisteredKept(tables: seq<Table>, owner: map<nat, nat>, main: nat, slot: nat, t: nat, p: nat)
    requires Registered(tables, owner) && main < |tables| && slot < |tables[main].keys| && tables[main].keys[slot] == Empty
    ensures Registered(tables[main := tables[main].(keys := tables[main].keys[slot := Id(t)])], owner[t := p])
  {
    var keys' := tables[main].keys[slot := Id(t)];
    var tables' := tables[main := tables[main].(keys := keys')];
    assert keys'[slot] == Id(t) && In(tables'[main], t);
    forall u | u in owner && u != t ensures exists h :: 0 <= h < |tables'| && In(tables'[h], u) {
      var h :| 0 <= h < |tables| && In(tables[h], u);
      var e :| 0 <= e < |tables[h].keys| && tables[h].keys[e] == Id(u);
      assert tables'[h].keys[e] == Id(u);
    }
  }

  /** The place after a CAS that takes `slot` for producer `p`. */
  function Taking(pc: Pc, slot: nat): Pc
    requires pc.MigrateCas? || pc.AddCas?
  {
    if pc.MigrateCas? then MigrateStore(pc.main, slot, pc.value) else AddStore(pc.main, slot, pc.p)
  }

  lemma TakeSlotResult(s: State, hashes: seq<nat>, g: Ghost, t: nat, ok: bool) returns (slot: nat)
    requires Inv(s, hashes, g) && t < |s.pcs| && (s.pcs[t].MigrateCas? || s.pcs[t].AddCas?) && Seen(s, hashes[t], t) == Empty
    ensures PcShape(s.tables, s.pcs[t]) && s.tables[s.pcs[t].main].capacity > 0
    ensures slot == Slot(s.tables[s.pcs[t].main].capacity, hashes[t], s.pcs[t].i) < |s.tables[s.pcs[t].main].keys|
    ensures Advance(s, hashes[t], t, ok) == SetPc(SetKey(s, s.pcs[t].main, slot, Id(t)), t, Taking(s.pcs[t], slot))
  {
    hide Rem, Pcs, Tables, Orders, Producers, Lock, TableInv, Walked, Counted, Registered, PcInv;
    AtTable(s, hashes, g, t, 0);
    AtTable(s, hashes, g, t, s.pcs[t].main);
    slot := Slot(s.tables[s.pcs[t].main].capacity, hashes[t], s.pcs[t].i);
  }

  /** A thread's CAS puts its id into an empty slot. */
  lemma StepTakeSlot(s: State, hashes: seq<nat>, g: Ghost, t: nat, ok: bool) returns (g': Ghost)
    requires Inv(s, hashes, g) && t < |s.pcs| && (s.pcs[t].MigrateCas? || s.pcs[t].AddCas?) && Seen(s, hashes[t], t) == Empty
    ensures Inv(Advance(s, hashes[t], t, ok), hashes, g') && Grows(g, g')
  {
    hide Rem, Advance, Seen, Tables, Pcs, Walked, Counted, Registered, Orders, Producers, Lock, Shape;
    var slot := TakeSlotResult(s, hashes, g, t, ok);
    var p := if s.pcs[t].MigrateCas? then s.pcs[t].value else s.pcs[t].p;
    SlotTaken(s, hashes, g, t, slot, Taking(s.pcs[t], slot), p);
    g' := g.(owner := g.owner[t := p]);
    TakenOwners(g.order, g.owner, s.producers, s.pcs, t, Taking(s.pcs[t], slot), p);
    LockMove(s.resizing, s.pcs, t, Taking(s.pcs[t], slot));
  }

  lemma TakenOwners(order: seq<nat>, owner: map<nat, nat>, producers: nat, pcs: seq<Pc>, t: nat, pc: Pc, p: nat)
    requires Orders(order, owner, pcs) && Producers(owner, producers, pcs) && t < |pcs| && !InCount(pc)
    requires (pcs[t].MigrateCas? && t in owner && owner[t] == p) || (pcs[t].AddCas? && pcs[t].p == p && t !in owner)
    ensures Orders(order, owner[t := p], pcs[t := pc]) && Producers(owner[t := p], producers, pcs[t := pc])
  {
    var owner', pcs' := owner[t := p], pcs[t := pc];
    assert forall u <- owner :: owner[u] in owner.Values;
    forall q | q in owner'.Values ensures q in owner.Values || q == p {
      var u :| u in owner' && owner'[u] == q;
    }
    forall u | 0 <= u < |pcs'| && Brings(pcs'[u]) ensures pcs'[u].p < producers && pcs'[u].p !in owner'.Values {
      assert u != t && Brings(pcs[u]);
    }
  }

  /** Producers once given are never taken away. */
  ghost predicate Grows(g: Ghost, g': Ghost) {
    forall t <- g.owner :: t in g'.owner && g'.owner[t] == g.owner[t]
  }

  // ------------------------------------------------------------------ storing the producer

  lemma StoredTable(table: Table, h: nat, hashes: seq<nat>, pcs: seq<Pc>, g: Ghost, t: nat, pc: Pc, stored: Table)
    requires TableInv(table, h, hashes, pcs, g) && t < |pcs| && t in g.owner && (pcs[t].MigrateStore? || pcs[t].AddStore?)
    requires if pcs[t].main == h
             then pcs[t].slot < |table.values| && stored == table.(values := table.values[pcs[t].slot := g.owner[t]])
                  && pcs[t].slot < |table.keys| && table.keys[pcs[t].slot] == Id(t)
             else stored == table
    ensures TableInv(stored, h, hashes, pcs[t := pc], g)
  {
    hide Reachable, Counted;
    var pcs' := pcs[t := pc];
    forall e: nat ensures KeyInv(stored, h, hashes, pcs', g, e) {
      assert KeyInv(table, h, hashes, pcs, g, e);
    }
  }

  lemma ValuePc(tables: seq<Table>, hash: nat, g: Ghost, u: nat, pc: Pc, main: nat, table: Table)
    requires PcInv(tables, hash, g, u, pc) && main < |tables| && table.keys == tables[main].keys && table.capacity == tables[main].capacity
    ensures PcInv(tables[main := table], hash, g, u, pc)
  {
    hide Walked, Counted;
    var tables' := tables[main := table];
    assert forall j :: 0 <= j < |tables| ==> tables'[j].keys == tables[j].keys && tables'[j].capacity == tables[j].capacity;
    forall j | 0 <= j < |tables| && !In(tables[j], u) ensures !In(tables'[j], u) {
    }
  }

  lemma StepStore(s: State, hashes: seq<nat>, g: Ghost, t: nat, ok: bool)
    requires Inv(s, hashes, g) && t < |s.pcs| && (s.pcs[t].MigrateStore? || s.pcs[t].AddStore?)
    ensures Inv(Advance(s, hashes[t], t, ok), hashes, g)
  {
    hide Rem, TableInv, Walked, Counted, Registered, Orders, Producers, Lock;
    var main, slot := s.pcs[t].main, s.pcs[t].slot;
    AtTable(s, hashes, g, t, main);
    var p := g.owner[t];
    var s' := SetPc(SetValue(s, main, slot, p), t, Done(Some(p)));
    assert s' == Advance(s, hashes[t], t, ok);
    forall h | 0 <= h < |s.tables| ensures TableInv(s'.tables[h], h, hashes, s'.pcs, g) {
      AtTable(s, hashes, g, t, h);
      StoredTable(s.tables[h], h, hashes, s.pcs, g, t, Done(Some(p)), s'.tables[h]);
    }
    forall u | 0 <= u < |s.pcs| && u != t ensures PcInv(s'.tables, hashes[u], g, u, s'.pcs[u]) {
      AtTable(s, hashes, g, u, main);
      ValuePc(s.tables, hashes[u], g, u, s.pcs[u], main, s'.tables[main]);
    }
    RegisteredValues(s.tables, g.owner, main, s'.tables[main]);
    OrdersMove(g.order, g.owner, s.pcs, t, Done(Some(p)));
    ProducersMove(g.owner, s.producers, s.pcs, t, Done(Some(p)));
    LockMove(s.resizing, s.pcs, t, Done(Some(p)));
  }

  lemma RegisteredValues(tables: seq<Table>, owner: map<nat, nat>, main: nat, table: Table)
    requires Registered(tables, owner) && main < |tables| && table.keys == tables[main].keys
    ensures Registered(tables[main := table], owner)
  {
    var tables' := tables[main := table];
    forall u | u in owner ensures exists h :: 0 <= h < |tables'| && In(tables'[h], u) {
      var h :| 0 <= h < |tables| && In(tables[h], u);
      assert In(tables'[h], u);
    }
  }

  // ------------------------------------------------------------------ being counted

  /** The invariant of the tables depends on the order only through who is counted how early. */
  lemma TableReordered(table: Table, h: nat, hashes: seq<nat>, pcs: seq<Pc>, g: Ghost, t: nat, pc: Pc, order: seq<nat>)
    requires TableInv(table, h, hashes, pcs, g) && t < |pcs| && !pcs[t].MigrateStore? && !pcs[t].AddStore?
    requires forall u, n: nat :: u in g.owner && Counted(g.order, u, n) ==> Counted(order, u, n)
    ensures TableInv(table, h, hashes, pcs[t := pc], g.(order := order))
  {
    hide Reachable, Counted;
    var pcs', g' := pcs[t := pc], g.(order := order);
    forall e: nat ensures KeyInv(table, h, hashes, pcs', g', e) {
      assert KeyInv(table, h, hashes, pcs, g, e);
    }
  }

  /** The order of counting changes for thread `t` only. */
  lemma Reordered(s: State, hashes: seq<nat>, g: Ghost, t: nat, pc: Pc, order: seq<nat>)
    requires Inv(s, hashes, g) && t < |s.pcs| && !s.pcs[t].MigrateStore? && !s.pcs[t].AddStore? && t !in g.owner
    requires forall u: nat, n: nat :: u != t && Counted(g.order, u, n) ==> Counted(order, u, n)
    requires forall u: nat :: u != t && u in g.order ==> u in order
    requires PcShape(s.tables, pc) && PcInv(s.tables, hashes[t], g.(order := order), t, pc)
    requires Orders(order, g.owner, s.pcs[t := pc]) && !Brings(pc) && (Locked(pc) ==> Locked(s.pcs[t]))
    ensures Inv(SetPc(s, t, pc).(count := |order|), hashes, g.(order := order))
  {
    hide Rem, TableInv, Registered, Orders, Producers, Lock, Walked, Counted;
    var g' := g.(order := order);
    forall h | 0 <= h < |s.tables| ensures TableInv(s.tables[h], h, hashes, s.pcs[t := pc], g') {
      AtTable(s, hashes, g, t, h);
      TableReordered(s.tables[h], h, hashes, s.pcs, g, t, pc, order);
    }
    forall u | 0 <= u < |s.pcs| && u != t ensures PcInv(s.tables, hashes[u], g', u, s.pcs[u]) {
      AtTable(s, hashes, g, u, 0);
    }
    ProducersMove(g.owner, s.producers, s.pcs, t, pc);
    LockMove(s.resizing, s.pcs, t, pc);
  }

  /** Drawing a number. */
  lemma StepCount(s: State, hashes: seq<nat>, g: Ghost, t: nat, ok: bool) returns (g': Ghost)
    requires Inv(s, hashes, g) && t < |s.pcs| && s.pcs[t].Count?
    ensures Inv(Advance(s, hashes[t], t, ok), hashes, g') && Grows(g, g')
  {
    hide Rem, TableInv, Registered, Producers, Lock, Walked, AbsentFrom;
    AtTable(s, hashes, g, t, 0);
    var order, pc := g.order + [t], TryLock(s.pcs[t].main, s.count + 1);
    g' := g.(order := order);
    assert t !in g.order;
    assert order[|g.order|] == t;
    forall u: nat, n: nat | Counted(g.order, u, n) ensures Counted(order, u, n) {
      var k :| 0 <= k < |g.order| && g.order[k] == u && k + 1 < n;
      assert order[k] == u;
    }
    CountedOrders(g.order, g.owner, s.pcs, t, pc);
    Reordered(s, hashes, g, t, pc, order);
  }

  lemma CountedOrders(order: seq<nat>, owner: map<nat, nat>, pcs: seq<Pc>, t: nat, pc: Pc)
    requires Orders(order, owner, pcs) && t < |pcs| && t !in order && InCount(pc)
    ensures Orders(order + [t], owner, pcs[t := pc])
  {
  }

  /** Giving the number back after a failed allocation: those drawn later move up. */
  lemma StepLeave(s: State, hashes: seq<nat>, g: Ghost, t: nat, ok: bool) returns (g': Ghost)
    requires Inv(s, hashes, g) && t < |s.pcs| && (s.pcs[t].NoTable? || s.pcs[t].NoProducer?)
    ensures Inv(Advance(s, hashes[t], t, ok), hashes, g') && Grows(g, g')
  {
    hide Rem, TableInv, Registered, Producers, Lock, Walked, AbsentFrom;
    AtTable(s, hashes, g, t, 0);
    var k :| 0 <= k < |g.order| && g.order[k] == t;
    var order, pc := g.order[..k] + g.order[k + 1..], if s.pcs[t].NoTable? then NoTableUnlock else Done(None);
    g' := g.(order := order);
    forall u: nat, n: nat | u != t && Counted(g.order, u, n) ensures Counted(order, u, n) {
      var j :| 0 <= j < |g.order| && g.order[j] == u && j + 1 < n;
      assert order[if j < k then j else j - 1] == u;
    }
    LeftOrders(g.order, g.owner, s.pcs, t, pc, k);
    Reordered(s, hashes, g, t, pc, order);
  }

  lemma LeftOrders(order: seq<nat>, owner: map<nat, nat>, pcs: seq<Pc>, t: nat, pc: Pc, k: nat)
    requires Orders(order, owner, pcs) && t < |pcs| && k < |order| && order[k] == t && t !in owner && !InCount(pc)
    ensures Orders(order[..k] + order[k + 1..], owner, pcs[t := pc])
    ensures forall u: nat :: u != t && u in order ==> u in order[..k] + order[k + 1..]
  {
    var order' := order[..k] + order[k + 1..];
    forall u: nat ensures u in order' <==> u in order && u != t {
      if u in order && u != t {
        var j :| 0 <= j < |order| && order[j] == u;
        assert order'[if j < k then j else j - 1] == u;
      }
    }
  }

  // ------------------------------------------------------------------ resizing

  /** The lock changes hands. */
  lemma LockStep(s: State, hashes: seq<nat>, g: Ghost, t: nat, pc: Pc, resizing: bool)
    requires Inv(s, hashes, g) && t < |s.pcs| && !s.pcs[t].MigrateStore? && !s.pcs[t].AddStore?
    requires PcShape(s.tables, pc) && PcInv(s.tables, hashes[t], g, t, pc)
    requires InCount(pc) == InCount(s.pcs[t]) && !Brings(pc)
    requires Lock(resizing, s.pcs[t := pc])
    ensures Inv(SetPc(s, t, pc).(resizing := resizing), hashes, g)
  {
    hide TableInv, TableShape, PcInv, Registered, Lock;
    TablesMove(s.tables, hashes, s.pcs, g, t, pc);
    OrdersMove(g.order, g.owner, s.pcs, t, pc);
    ProducersMove(g.owner, s.producers, s.pcs, t, pc);
  }

  lemma StepLock(s: State, hashes: seq<nat>, g: Ghost, t: nat, ok: bool)
    requires Inv(s, hashes, g) && t < |s.pcs| && (s.pcs[t].TryLock? || s.pcs[t].Unlock? || s.pcs[t].NoTableUnlock?)
    ensures Inv(Advance(s, hashes[t], t, ok), hashes, g)
  {
    hide Rem, TableInv, Registered, Producers, Orders, Walked, AbsentFrom, Counted, Tables;
    AtTable(s, hashes, g, t, 0);
    var s' := Advance(s, hashes[t], t, ok);
    assert Lock(s'.resizing, s.pcs[t := s'.pcs[t]]);
    LockStep(s, hashes, g, t, s'.pcs[t], s'.resizing);
  }

  /** A new, empty table becomes the main one. */
  lemma NewTable(s: State, hashes: seq<nat>, g: Ghost, t: nat, capacity: nat, n: nat)
    requires Inv(s, hashes, g) && t < |s.pcs| && s.pcs[t] == Allocate(|s.tables| - 1, n)
    requires capacity >= s.tables[|s.tables| - 1].capacity
    ensures Inv(SetPc(s, t, Unlock(|s.tables|, n)).(tables := s.tables + [EmptyTable(capacity, Some(|s.tables| - 1))]), hashes, g)
  {
    var table := EmptyTable(capacity, Some(|s.tables| - 1));
    hide Rem, TableInv, Producers, Orders, Walked, Counted, Registered;
    var tables, pc := s.tables + [table], Unlock(|s.tables|, n);
    TablesMove(s.tables, hashes, s.pcs, g, t, pc);
    EmptyTableInv(table, |s.tables|, hashes, s.pcs[t := pc], g);
    forall u | 0 <= u < |s.pcs| ensures PcInv(tables, hashes[u], g, u, s.pcs[t := pc][u]) {
      AtTable(s, hashes, g, u, 0);
      OneMoreTable(s.tables, tables, hashes[u], g, u, s.pcs[u]);
    }
    OrdersMove(g.order, g.owner, s.pcs, t, pc);
    ProducersMove(g.owner, s.producers, s.pcs, t, pc);
    LockMove(s.resizing, s.pcs, t, pc);
    RegisteredMore(s.tables, g.owner, table);
  }

  lemma EmptyTableInv(table: Table, h: nat, hashes: seq<nat>, pcs: seq<Pc>, g: Ghost)
    requires exists capacity: nat, prev :: table == EmptyTable(capacity, prev)
    ensures TableInv(table, h, hashes, pcs, g) && forall t :: !In(table, t)
  {
  }

  lemma RegisteredMore(tables: seq<Table>, owner: map<nat, nat>, table: Table)
    requires Registered(tables, owner)
    ensures Registered(tables + [table], owner)
  {
    forall u | u in owner ensures exists h :: 0 <= h < |tables + [table]| && In((tables + [table])[h], u) {
      var h :| 0 <= h < |tables| && In(tables[h], u);
      assert In((tables + [table])[h], u);
    }
  }

  lemma OneMoreTable(tables: seq<Table>, tables': seq<Table>, hash: nat, g: Ghost, u: nat, pc: Pc)
    requires PcInv(tables, hash, g, u, pc) && |tables'| == |tables| + 1 && tables' == tables + [tables'[|tables|]]
    requires !In(tables'[|tables|], u)
    ensures !pc.Allocate? ==> PcInv(tables', hash, g, u, pc)
    ensures pc.Allocate? ==> PcInv(tables', hash, g, u, Unlock(|tables|, pc.n))
  {
    hide Rem, Walked, Counted;
    forall h: nat | AbsentFrom(tables, u, h) ensures AbsentFrom(tables', u, h) {
    }
  }

  lemma StepAllocate(s: State, hashes: seq<nat>, g: Ghost, t: nat, ok: bool)
    requires Inv(s, hashes, g) && t < |s.pcs| && s.pcs[t].Allocate?
    ensures Inv(Advance(s, hashes[t], t, ok), hashes, g)
  {
    hide Rem, TableInv, Producers, Orders, Walked, AbsentFrom, Tables, Registered;
    AtTable(s, hashes, g, t, 0);
    if ok {
      var main, n := s.pcs[t].main, s.pcs[t].n;
      NewTable(s, hashes, g, t, Grown(2 * s.tables[main].capacity, n), n);
    } else {
      Moves(s, hashes, g, t, NoTable);
    }
  }

  // ------------------------------------------------------------------ creating a producer

  lemma StepCreate(s: State, hashes: seq<nat>, g: Ghost, t: nat, ok: bool)
    requires Inv(s, hashes, g) && t < |s.pcs| && s.pcs[t].Create?
    ensures Inv(Advance(s, hashes[t], t, ok), hashes, g)
  {
    hide Rem, TableInv, Walked, AbsentFrom, Registered;
    AtTable(s, hashes, g, t, 0);
    if ok {
      var main := s.pcs[t].main;
      var pc := Add(main, s.producers, 0);
      WalkedNone(s.tables[main].keys, hashes[t], t);
      CountedMore(g.order, t, s.pcs[t].n + 1, Limit(s.tables[main].capacity));
      TablesMove(s.tables, hashes, s.pcs, g, t, pc);
      OrdersMove(g.order, g.owner, s.pcs, t, pc);
      CreatedProducers(g.owner, s.producers, s.pcs, t, pc);
      LockMove(s.resizing, s.pcs, t, pc);
    } else {
      AnyCounted(g.order, t, s.pcs[t].n + 1);
      Moves(s, hashes, g, t, NoProducer);
    }
  }

  lemma AnyCounted(order: seq<nat>, t: nat, n: nat)
    requires Counted(order, t, n)
    ensures t in order
  {
  }

  lemma CreatedProducers(owner: map<nat, nat>, producers: nat, pcs: seq<Pc>, t: nat, pc: Pc)
    requires Producers(owner, producers, pcs) && t < |pcs| && pc.Add? && pc.p == producers
    ensures Producers(owner, producers + 1, pcs[t := pc])
  {
    forall q | q in owner.Values ensures q < producers {
      var u :| u in owner && owner[u] == q;
    }
  }

  /** The remaining steps only load, compare and branch. */
  lemma StepLocal(s: State, hashes: seq<nat>, g: Ghost, t: nat, ok: bool)
    requires Inv(s, hashes, g) && t < |s.pcs|
    requires s.pcs[t].Load? || s.pcs[t].Reload? || s.pcs[t].Room? || s.pcs[t].LoadAgain?
    ensures Inv(Advance(s, hashes[t], t, ok), hashes, g)
  {
    hide Rem, TableInv, Producers, Orders, Walked, AbsentFrom, Tables, Registered, Lock, Counted;
    AtTable(s, hashes, g, t, 0);
    if s.pcs[t].Load? {
      WalkedNone(s.tables[|s.tables| - 1].keys, hashes[t], t);
      AbsentBeyond(s.tables, t);
    }
    Moves(s, hashes, g, t, Advance(s, hashes[t], t, ok).pcs[t]);
  }

  lemma AbsentBeyond(tables: seq<Table>, t: nat)
    ensures AbsentFrom(tables, t, |tables|)
  {
  }

  // ------------------------------------------------------------------ every step

  lemma StepRun(s: State, hashes: seq<nat>, g: Ghost, t: nat, ok: bool) returns (g': Ghost)
    requires Inv(s, hashes, g) && Enabled(s, hashes, Run(t, ok))
    ensures Inv(Advance(s, hashes[t], t, ok), hashes, g') && Grows(g, g')
  {
    hide Inv, Advance, Shape;
    g' := g;
    match s.pcs[t]
    case Probe(_, _, _) => StepProbe(s, hashes, g, t, ok);
    case Migrate(_, _, _) => StepSeek(s, hashes, g, t, ok);
    case Add(_, _, _) => StepSeek(s, hashes, g, t, ok);
    case MigrateCas(_, _, _) => g' := StepCas(s, hashes, g, t, ok);
    case AddCas(_, _, _) => g' := StepCas(s, hashes, g, t, ok);
    case MigrateStore(_, _, _) => StepStore(s, hashes, g, t, ok);
    case AddStore(_, _, _) => StepStore(s, hashes, g, t, ok);
    case Count(_) => g' := StepCount(s, hashes, g, t, ok);
    case NoTable => g' := StepLeave(s, hashes, g, t, ok);
    case NoProducer => g' := StepLeave(s, hashes, g, t, ok);
    case TryLock(_, _) => StepLock(s, hashes, g, t, ok);
    case Unlock(_, _) => StepLock(s, hashes, g, t, ok);
    case NoTableUnlock => StepLock(s, hashes, g, t, ok);
    case Allocate(_, _) => StepAllocate(s, hashes, g, t, ok);
    case Create(_, _) => StepCreate(s, hashes, g, t, ok);
    case _ => StepLocal(s, hashes, g, t, ok);
  }

  lemma StepCas(s: State, hashes: seq<nat>, g: Ghost, t: nat, ok: bool) returns (g': Ghost)
    requires Inv(s, hashes, g) && t < |s.pcs| && (s.pcs[t].MigrateCas? || s.pcs[t].AddCas?)
    ensures Inv(Advance(s, hashes[t], t, ok), hashes, g') && Grows(g, g')
  {
    AtTable(s, hashes, g, t, 0);
    hide Advance, Rem, Tables, Pcs, Orders, Producers, Lock, Registered, PcInv;
    g' := g;
    if Seen(s, hashes[t], t) == Empty {
      g' := StepTakeSlot(s, hashes, g, t, ok);
    } else {
      StepSeek(s, hashes, g, t, ok);
    }
  }

  /** Every step of every thread keeps the invariant, and no thread loses its producer. */
  lemma StepInv(s: State, hashes: seq<nat>, g: Ghost, a: Action) returns (g': Ghost)
    requires Inv(s, hashes, g) && Enabled(s, hashes, a)
    ensures Inv(Apply(s, hashes, a), hashes, g') && Grows(g, g')
  {
    AtTable(s, hashes, g, a.t, 0);
    hide Advance, Rem, Tables, Pcs, Orders, Producers, Lock, Registered;
    g' := g;
    match a
    case Call(t) => Moves(s, hashes, g, t, Load);
    case Return(t) => Moves(s, hashes, g, t, Idle);
    case Run(t, ok) => g' := StepRun(s, hashes, g, t, ok);
  }

  // ------------------------------------------------------------------ probing terminates

  ghost function Occupied(keys: seq<Key>): (r: set<nat>)
    ensures forall e :: e in r <==> 0 <= e < |keys| && keys[e] != Empty
  {
    set e: nat | e < |keys| && keys[e] != Empty
  }

  /** A set of numbers that can be numbered apart below `n` has at most `n` members. */
  lemma {:induction false} Pigeonhole(xs: set<nat>, number: map<nat, nat>, n: nat)
    requires forall x <- xs :: x in number && number[x] < n
    requires forall x <- xs, y <- xs :: x != y ==> number[x] != number[y]
    ensures |xs| <= n
  {
    if xs != {} {
      if x :| x in xs && number[x] == n - 1 {
        assert |xs| == |xs - {x}| + 1;
        Pigeonhole(xs - {x}, number, n - 1);
      } else {
        assert n > 0;
        Pigeonhole(xs, number, n - 1);
      }
    }
  }

  /** The number of a slot's thread in the order of counting. */
  ghost function Rank(order: seq<nat>, t: nat, n: nat): (k: nat)
    requires Counted(order, t, n)
    ensures k < |order| && order[k] == t && k + 1 < n
  {
    var k: nat :| k < |order| && order[k] == t && k + 1 < n;
    k
  }

  /** Every table, current or superseded, holds fewer keys than three quarters of its
      capacity, whatever resizes, failures and migrations are under way. */
  lemma FewKeys(s: State, hashes: seq<nat>, g: Ghost, h: nat)
    requires Inv(s, hashes, g) && h < |s.tables|
    ensures var table := s.tables[h];
            && (Occupied(table.keys) != {} ==> |Occupied(table.keys)| < Limit(table.capacity))
            && 4 * |Occupied(table.keys)| < 3 * table.capacity
            && |Occupied(table.keys)| < table.capacity
  {
    hide Rem, Pcs, Orders, Producers, Lock, Registered, Reachable;
    var keys, n := s.tables[h].keys, Limit(s.tables[h].capacity);
    assert TableInv(s.tables[h], h, hashes, s.pcs, g) && TableShape(s.tables[h], h);
    forall e: nat | e in Occupied(keys) ensures keys[e].Id? && Counted(g.order, keys[e].t, n) {
      assert KeyInv(s.tables[h], h, hashes, s.pcs, g, e);
    }
    var number := map e | e in Occupied(keys) :: Rank(g.order, keys[e].t, n);
    forall e, f | e in Occupied(keys) && f in Occupied(keys) && e != f ensures number[e] != number[f] {
      OnePerTable(s.tables[h], h, hashes, s.pcs, g, e, f);
    }
    if Occupied(keys) != {} {
      var e :| e in Occupied(keys);
      assert number[e] + 1 < n;
      Pigeonhole(Occupied(keys), number, n - 1);
    }
  }

  /** No id is twice in one table. */
  lemma OnePerTable(table: Table, h: nat, hashes: seq<nat>, pcs: seq<Pc>, g: Ghost, e: nat, f: nat)
    requires TableInv(table, h, hashes, pcs, g) && |table.keys| == |table.values|
    requires e < |table.keys| && f < |table.keys| && e != f && table.keys[e].Id? && table.keys[f].Id?
    ensures table.keys[e].t != table.keys[f].t
  {
    hide Rem, Counted;
    assert KeyInv(table, h, hashes, pcs, g, e) && KeyInv(table, h, hashes, pcs, g, f);
    var t, u := table.keys[e].t, table.keys[f].t;
    var c: nat :| Reached(table.keys, hashes[t], e, c, t);
    var d: nat :| Reached(table.keys, hashes[u], f, d, u);
    assert t == u && c < d ==> MeetsOther(table.keys, hashes[u], c, u);
    assert t == u && d < c ==> MeetsOther(table.keys, hashes[t], d, t);
  }

  predicate Probing(pc: Pc) {
    pc.Probe? || pc.Migrate? || pc.MigrateCas? || pc.Add? || pc.AddCas?
  }

  /** Every linear probe ends: the probes made so far met different occupied slots, so
      they are fewer than three quarters of the table. */
  lemma ProbesEnd(s: State, hashes: seq<nat>, g: Ghost, t: nat)
    requires Inv(s, hashes, g) && t < |s.pcs| && Probing(s.pcs[t])
    ensures var h := if s.pcs[t].Probe? then s.pcs[t].h else s.pcs[t].main;
            h < |s.tables| && s.pcs[t].i <= |Occupied(s.tables[h].keys)| && 4 * s.pcs[t].i < 3 * s.tables[h].capacity
  {
    hide Rem, Tables, Orders, Producers, Lock, Registered, Counted;
    var h := if s.pcs[t].Probe? then s.pcs[t].h else s.pcs[t].main;
    AtTable(s, hashes, g, t, 0);
    AtTable(s, hashes, g, t, h);
    FewKeys(s, hashes, g, h);
    WalkIsShort(s.tables[h].keys, hashes[t], s.pcs[t].i, t);
  }

  lemma WalkIsShort(keys: seq<Key>, hash: nat, i: nat, t: nat)
    requires |keys| > 0 && Walked(keys, hash, i, t) && |Occupied(keys)| < |keys|
    ensures i <= |Occupied(keys)|
  {
    hide Rem;
    if i > |Occupied(keys)| {
      var n := |Occupied(keys)| + 1;
      var met := MetSlots(keys, hash, n, t);
      SubsetSize(met, Occupied(keys));
    }
  }

  /** The first `n` probes, within one round, meet `n` different occupied slots. */
  lemma {:induction false} MetSlots(keys: seq<Key>, hash: nat, n: nat, t: nat) returns (met: set<nat>)
    requires |keys| > 0 && Walked(keys, hash, n, t) && n <= |keys|
    ensures |met| == n && met <= Occupied(keys)
    ensures forall e <- met :: exists d: nat :: d < n && e == Slot(|keys|, hash, d)
  {
    hide Rem;
    if n == 0 {
      met := {};
    } else {
      var before := MetSlots(keys, hash, n - 1, t);
      var e := Slot(|keys|, hash, n - 1);
      assert MeetsOther(keys, hash, n - 1, t);
      forall f | f in before ensures f != e {
        var d: nat :| d < n - 1 && f == Slot(|keys|, hash, d);
        RemDiffer(hash + d, hash + (n - 1), |keys|);
      }
      met := before + {e};
    }
  }

  // ------------------------------------------------------------------ runs

  ghost predicate IsStep(s: State, hashes: seq<nat>, a: Action, s': State) {
    Shape(s) && Enabled(s, hashes, a) && s' == Apply(s, hashes, a)
  }

  ghost predicate IsRun(hashes: seq<nat>, states: seq<State>, actions: seq<Action>) {
    && |states| == |actions| + 1
    && (exists initialBits: nat :: states[0] == Initial(initialBits, |hashes|))
    && (forall i :: 0 <= i < |actions| ==> IsStep(states[i], hashes, actions[i], states[i + 1]))
  }

  lemma {:induction false} RunInv(hashes: seq<nat>, states: seq<State>, actions: seq<Action>, i: nat) returns (g: Ghost)
    requires IsRun(hashes, states, actions) && i < |states|
    ensures Inv(states[i], hashes, g)
  {
    hide Inv, Apply, Shape, Enabled;
    if i == 0 {
      var initialBits: nat :| states[0] == Initial(initialBits, |hashes|);
      InitialInv(initialBits, hashes);
      g := Ghost([], map[]);
    } else {
      var g0 := RunInv(hashes, states, actions, i - 1);
      assert IsStep(states[i - 1], hashes, actions[i - 1], states[i]);
      g := StepInv(states[i - 1], hashes, g0, actions[i - 1]);
    }
  }

  lemma {:induction false} RunGrows(hashes: seq<nat>, states: seq<State>, actions: seq<Action>, i: nat, j: nat, g: Ghost) returns (g': Ghost)
    requires IsRun(hashes, states, actions) && i <= j < |states| && Inv(states[i], hashes, g)
    ensures Inv(states[j], hashes, g') && Grows(g, g')
    decreases j
  {
    hide Inv, Apply, Shape, Enabled;
    g' := g;
    if i < j {
      var g0 := RunGrows(hashes, states, actions, i, j - 1, g);
      assert IsStep(states[j - 1], hashes, actions[j - 1], states[j]);
      g' := StepInv(states[j - 1], hashes, g0, actions[j - 1]);
    }
  }

  predicate Returns(s: State, t: nat, p: nat) {
    t < |s.pcs| && s.pcs[t] == Done(Some(p))
  }

  /** Repeated calls by one thread return the same producer, and different threads get
      different producers, through any number of resizes and failures. */
  lemma IdentityIsStable(hashes: seq<nat>, states: seq<State>, actions: seq<Action>, i: nat, j: nat, t: nat, p: nat, u: nat, q: nat)
    requires IsRun(hashes, states, actions) && i <= j < |states|
    requires Returns(states[i], t, p) && Returns(states[j], u, q)
    ensures t == u <==> p == q
  {
    hide IsRun, Orders, Lock, Registered, Tables, Shape;
    var g := RunInv(hashes, states, actions, i);
    var g' := RunGrows(hashes, states, actions, i, j, g);
    assert PcInv(states[i].tables, hashes[t], g, t, states[i].pcs[t]);
    assert PcInv(states[j].tables, hashes[u], g', u, states[j].pcs[u]);
  }

  /** Once a call by a thread has returned a producer, no later call of that thread draws
      a number or creates a producer: the tables always lead it to the one it has. */
  lemma KnownThreadIsFound(hashes: seq<nat>, states: seq<State>, actions: seq<Action>, i: nat, j: nat, t: nat, p: nat)
    requires IsRun(hashes, states, actions) && i <= j < |states| && Returns(states[i], t, p)
    ensures t < |states[j].pcs| && !states[j].pcs[t].Count? && !InCount(states[j].pcs[t])
    ensures exists h :: 0 <= h < |states[j].tables| && In(states[j].tables[h], t)
  {
    hide IsRun, Orders, Lock, Tables, Shape, Producers, Pcs;
    var g := RunInv(hashes, states, actions, i);
    var g' := RunGrows(hashes, states, actions, i, j, g);
    SameThreads(hashes, states[i], g, states[j], g');
    AtTable(states[i], hashes, g, t, 0);
    AtTable(states[j], hashes, g', t, 0);
  }

  lemma SameThreads(hashes: seq<nat>, s: State, g: Ghost, s': State, g': Ghost)
    requires Inv(s, hashes, g) && Inv(s', hashes, g')
    ensures |s.pcs| == |s'.pcs| && s.tables != [] && s'.tables != []
  {
  }

  /** With no call in progress the counter is the number of threads registered. */
  lemma QuietCount(s: State, hashes: seq<nat>, g: Ghost)
    requires Inv(s, hashes, g) && forall t :: 0 <= t < |s.pcs| ==> s.pcs[t].Idle?
    ensures s.count == |g.owner|
  {
    hide Tables, Pcs, Producers, Lock, Registered, Shape;
    assert forall t: nat :: t in g.order <==> t in g.owner.Keys;
    OrderSize(g.order, g.owner.Keys);
  }

  lemma {:induction false} OrderSize(order: seq<nat>, members: set<nat>)
    requires forall i, j :: 0 <= i < j < |order| ==> order[i] != order[j]
    requires forall t: nat :: t in order <==> t in members
    ensures |order| == |members|
  {
    if order != [] {
      var n := |order| - 1;
      assert order == order[..n] + [order[n]];
      assert |members| == |members - {order[n]}| + 1;
      OrderSize(order[..n], members - {order[n]});
    } else {
      assert members == {};
    }
  }
}
