/** What the block index does when a block stays in use until the producer is a whole turn
    of the index ahead, as a consumer that sleeps on its claim can make it. */
module IndexOverrun {
  import opened Circular
  import opened BlockIndex

  ghost predicate IsStep(cfg: Config, s: State, a: Action, s': State)
    requires cfg.Valid()
  {
    Shape(s) && Enabled(s, a) && s' == Apply(cfg, s, a)
  }

  ghost predicate IsRun(cfg: Config, states: seq<State>, actions: seq<Action>)
    requires cfg.Valid()
  {
    && |states| == |actions| + 1
    && states[0] == Initial(cfg, true, 1)
    && (forall i :: 0 <= i < |actions| ==> IsStep(cfg, states[i], actions[i], states[i + 1]))
  }

  ghost predicate Reachable(cfg: Config, s: State)
    requires cfg.Valid()
  {
    exists states, actions :: IsRun(cfg, states, actions) && states[|actions|] == s
  }

  lemma StepReachable(cfg: Config, s: State, a: Action)
    requires cfg.Valid() && Reachable(cfg, s) && Shape(s) && Enabled(s, a)
    ensures Reachable(cfg, Apply(cfg, s, a))
  {
    hide Shape, Enabled, Apply, Initial;
    var states, actions :| IsRun(cfg, states, actions) && states[|actions|] == s;
    var states', actions' := states + [Apply(cfg, s, a)], actions + [a];
    forall i | 0 <= i < |actions'| ensures IsStep(cfg, states'[i], actions'[i], states'[i + 1]) {
      assert i < |actions| ==> IsStep(cfg, states[i], actions[i], states[i + 1]);
    }
    assert IsRun(cfg, states', actions');
  }

  /** Blocks 0 up to `k` are in the first index, each in the slot of its number; block `x` of
      the index is the block with identity `x`. */
  function Filled(cfg: Config, k: nat, keyed: nat, tail: nat, w: Writer): State
    requires cfg.Valid()
  {
    var cap := Pow2(cfg.initialBits);
    State(seq(cap, i requires 0 <= i < cap => Entry(if i < keyed then BaseWord(cfg, i) else INVALID_BLOCK_BASE, if i < k then Ptr(i) else Garbage)),
          [Header(cap, tail, FreshIds(0, cap))], w, [Off])
  }

  lemma FilledShape(cfg: Config, k: nat, keyed: nat, tail: nat, w: Writer)
    requires cfg.Valid() && tail < Pow2(cfg.initialBits)
    requires w.PutKey? || w.PutTail? ==> w.slot < Pow2(cfg.initialBits)
    requires w.Inserted? ==> w.e < Pow2(cfg.initialBits)
    requires !w.Drop?
    ensures Shape(Filled(cfg, k, keyed, tail, w))
  {
    hide Pow2, BaseWord;
  }

  function TailAfter(cfg: Config, k: nat): (r: nat)
    ensures k <= Pow2(cfg.initialBits) ==> r < Pow2(cfg.initialBits)
  {
    if k == 0 then Pow2(cfg.initialBits) - 1 else k - 1
  }

  lemma InsertNext(cfg: Config, k: nat)
    requires cfg.Valid() && k < Pow2(cfg.initialBits)
    requires Reachable(cfg, Filled(cfg, k, k, TailAfter(cfg, k), Rest))
    ensures Reachable(cfg, Filled(cfg, k + 1, k + 1, k, Rest))
  {
    hide Pow2, BaseWord, Reachable, Shape, FindSlot, Rem;
    var cap, tail := Pow2(cfg.initialBits), TailAfter(cfg, k);
    RemUnique(tail + 1, cap, if k == 0 then 1 else 0, k);
    FilledShape(cfg, k, k, tail, Rest);
    StepReachable(cfg, Filled(cfg, k, k, tail, Rest), BeginInsert(k));
    FilledShape(cfg, k, k, tail, Look(k));
    StepReachable(cfg, Filled(cfg, k, k, tail, Look(k)), Write(true));
    FilledShape(cfg, k, k, tail, PutKey(k, k));
    assert Apply(cfg, Filled(cfg, k, k, tail, PutKey(k, k)), Write(true)) == Filled(cfg, k, k + 1, tail, PutTail(k, k));
    StepReachable(cfg, Filled(cfg, k, k, tail, PutKey(k, k)), Write(true));
    FilledShape(cfg, k, k + 1, tail, PutTail(k, k));
    assert Apply(cfg, Filled(cfg, k, k + 1, tail, PutTail(k, k)), Write(true)) == Filled(cfg, k, k + 1, k, Inserted(k, k));
    StepReachable(cfg, Filled(cfg, k, k + 1, tail, PutTail(k, k)), Write(true));
    FilledShape(cfg, k, k + 1, k, Inserted(k, k));
    assert Apply(cfg, Filled(cfg, k, k + 1, k, Inserted(k, k)), Fill(k)) == Filled(cfg, k + 1, k + 1, k, Rest);
    StepReachable(cfg, Filled(cfg, k, k + 1, k, Inserted(k, k)), Fill(k));
  }

  lemma {:induction false} FilledReachable(cfg: Config, k: nat)
    requires cfg.Valid() && k <= Pow2(cfg.initialBits)
    ensures Reachable(cfg, Filled(cfg, k, k, TailAfter(cfg, k), Rest))
  {
    hide Pow2, BaseWord, Reachable;
    if k == 0 {
      assert Filled(cfg, 0, 0, TailAfter(cfg, 0), Rest) == Initial(cfg, true, 1);
      StartReachable(cfg);
    } else {
      FilledReachable(cfg, k - 1);
      InsertNext(cfg, k - 1);
    }
  }

  lemma StartReachable(cfg: Config)
    requires cfg.Valid()
    ensures Reachable(cfg, Initial(cfg, true, 1))
  {
    assert IsRun(cfg, [Initial(cfg, true, 1)], []);
  }

  /** The index is full, and block `cap` has been put into one of twice the size. */
  predicate Doubled(cfg: Config, s: State, tail: nat, w: Writer)
    requires cfg.Valid()
  {
    var cap := Pow2(cfg.initialBits);
    && |s.entries| == 2 * cap && |s.headers| == 2 && s.writer == w && s.readers == [Off]
    && s.headers[1].capacity == 2 * cap == |s.headers[1].index| && s.headers[1].tail == tail
    && s.headers[1].index[cap] == cap && s.entries[0] == Entry(BaseWord(cfg, 0), Ptr(0))
    && Shape(s)
  }

  lemma DoublingStep(cfg: Config) returns (s: State)
    requires cfg.Valid()
    ensures Reachable(cfg, s) && Doubled(cfg, s, Pow2(cfg.initialBits) - 1, PutKey(Pow2(cfg.initialBits), Pow2(cfg.initialBits)))
  {
    var cap := Pow2(cfg.initialBits);
    FilledReachable(cfg, cap);
    BaseIsEven(cfg, 0);
    RemUnique(cap, cap, 1, 0);
    RemUnique(cap, 2 * cap, 0, cap);
    hide Pow2, BaseWord, Reachable, Shape, FindSlot;
    FilledShape(cfg, cap, cap, cap - 1, Rest);
    StepReachable(cfg, Filled(cfg, cap, cap, cap - 1, Rest), BeginInsert(cap));
    FilledShape(cfg, cap, cap, cap - 1, Look(cap));
    StepReachable(cfg, Filled(cfg, cap, cap, cap - 1, Look(cap)), Write(true));
    var full := Filled(cfg, cap, cap, cap - 1, Grow(cap));
    FilledShape(cfg, cap, cap, cap - 1, Grow(cap));
    StepReachable(cfg, full, Write(true));
    s := Apply(cfg, full, Write(true));
    DoubledShape(cfg, s, full);
  }

  lemma DoubledShape(cfg: Config, s: State, full: State)
    requires cfg.Valid() && full == Filled(cfg, Pow2(cfg.initialBits), Pow2(cfg.initialBits), Pow2(cfg.initialBits) - 1, Grow(Pow2(cfg.initialBits)))
    requires Shape(full) && s == Apply(cfg, full, Write(true))
    ensures Shape(s)
  {
    var cap := Pow2(cfg.initialBits);
    RemUnique(cap, 2 * cap, 0, cap);
    hide BaseWord, Rem, Pow2;
    GrownShape(full.headers[0], cap);
  }

  /** The entry that a lookup has led to. */
  function Looked(s: State, r: Reader): Entry
    requires Shape(s) && ReaderShape(s, r) && r.Found?
  {
    s.entries[s.headers[r.h].index[r.idx]]
  }

  /** An index that starts with the capacity of a whole turn: once a block a turn ahead of
      block 0 has been inserted, the lookup of block 0, which is still in the index, leads
      to the newer block. */
  lemma SleeperLosesItsBlock(cfg: Config) returns (states: seq<State>, actions: seq<Action>)
    requires cfg.Valid() && cfg.blockBits + cfg.initialBits == cfg.indexBits
    ensures IsRun(cfg, states, actions)
    ensures var last := states[|actions|];
            && Shape(last) && |last.readers| == 1 && last.readers[0].Found? && last.readers[0].lo == 0
            && |last.entries| > 0 && last.entries[0] == Entry(BaseWord(cfg, 0), Ptr(0))
            && Looked(last, last.readers[0]) == Entry(BaseWord(cfg, cfg.Turn()), Ptr(cfg.Turn())) && cfg.Turn() != 0
  {
    var cap := Pow2(cfg.initialBits);
    var s := DoublingStep(cfg);
    s := InsertDoubled(cfg, s);
    s := LookupOldest(cfg, s);
    hide IsStep, Initial;
    states, actions :| IsRun(cfg, states, actions) && states[|actions|] == s;
  }

  lemma InsertDoubled(cfg: Config, s: State) returns (s': State)
    requires cfg.Valid() && Reachable(cfg, s) && Doubled(cfg, s, Pow2(cfg.initialBits) - 1, PutKey(Pow2(cfg.initialBits), Pow2(cfg.initialBits)))
    ensures Reachable(cfg, s') && Doubled(cfg, s', Pow2(cfg.initialBits), Rest)
    ensures s'.entries[Pow2(cfg.initialBits)] == Entry(BaseWord(cfg, Pow2(cfg.initialBits)), Ptr(Pow2(cfg.initialBits)))
  {
    hide Pow2, BaseWord, Reachable, FindSlot;
    var cap := Pow2(cfg.initialBits);
    StepReachable(cfg, s, Write(true));
    s' := Apply(cfg, s, Write(true));
    StepReachable(cfg, s', Write(true));
    s' := Apply(cfg, s', Write(true));
    StepReachable(cfg, s', Fill(cap));
    s' := Apply(cfg, s', Fill(cap));
  }

  lemma LookupOldest(cfg: Config, s: State) returns (s': State)
    requires cfg.Valid() && cfg.blockBits + cfg.initialBits == cfg.indexBits
    requires Reachable(cfg, s) && Doubled(cfg, s, Pow2(cfg.initialBits), Rest)
    requires s.entries[Pow2(cfg.initialBits)] == Entry(BaseWord(cfg, Pow2(cfg.initialBits)), Ptr(Pow2(cfg.initialBits)))
    ensures Reachable(cfg, s') && Shape(s') && s'.entries == s.entries && s'.headers == s.headers
    ensures s'.readers == [Found(0, 0, 1, Pow2(cfg.initialBits))]
  {
    var cap := Pow2(cfg.initialBits);
    SameKey(cfg, 0);
    KeyDistance(cfg, 0, 0);
    RemUnique(0, cap, 0, 0);
    RemUnique(cap, 2 * cap, 0, cap);
    assert FindSlot(cfg, 0, cap, BaseWord(cfg, cap), 2 * cap) == cap;
    hide Pow2, BaseWord, Reachable, FindSlot, Rem, Quot;
    StepReachable(cfg, s, BeginLookup(0, 0, 0));
    s' := Apply(cfg, s, BeginLookup(0, 0, 0));
    StepReachable(cfg, s', Read(0));
    s' := Apply(cfg, s', Read(0));
    StepReachable(cfg, s', Read(0));
    s' := Apply(cfg, s', Read(0));
    StepReachable(cfg, s', Read(0));
    s' := Apply(cfg, s', Read(0));
  }
}
