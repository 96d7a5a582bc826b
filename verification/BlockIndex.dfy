/** The growing circular block index of an implicit producer: one writer that inserts,
    rewinds and grows, and any number of consumers that look blocks up through a header
    and a tail they may have loaded long ago. Blocks are known by their number: block
    `x` holds elements `x * BLOCK_SIZE` up to the next multiple. */
module BlockIndex {
  import opened Circular

  type EntryId = nat
  type BlockId = nat

  /** BLOCK_SIZE is 2^blockBits; an index_t has indexBits bits. */
  datatype Config = Config(blockBits: nat, indexBits: nat, initialBits: nat) {
    ghost predicate Valid() {
      0 < blockBits && 0 < initialBits && blockBits + initialBits <= indexBits
    }
    function BlockSize(): nat { Pow2(blockBits) }
    function Half(): nat requires indexBits > 0 { Pow2(indexBits - 1) }
    /** Block bases in one turn of the index. */
    function Turn(): nat requires blockBits <= indexBits { Pow2(indexBits - blockBits) }
  }

  /** The low bit is set, so this is no block base. */
  const INVALID_BLOCK_BASE: nat := 1

  /** `Garbage` stands for the indeterminate value of an entry never stored to. */
  datatype Value = Null | Garbage | Ptr(block: BlockId)

  datatype Entry = Entry(key: nat, value: Value)

  datatype Header = Header(capacity: nat, tail: nat, index: seq<EntryId>)

  datatype Writer =
    | Rest
    | Look(x: nat)
    | Grow(x: nat)
    | PutKey(x: nat, slot: nat)
    | PutTail(x: nat, slot: nat)
    | Inserted(x: nat, e: EntryId)
    | Refused
    | Drop(x: nat, e: EntryId)
    | Unwind(x: nat)

  /** A consumer that still needs blocks `lo .. hi` of the index. */
  datatype Reader =
    | Off
    | LoadHeader(lo: nat, hi: nat)
    | LoadTail(lo: nat, hi: nat, h: nat)
    | LoadKey(lo: nat, hi: nat, h: nat, tail: nat)
    | Found(lo: nat, hi: nat, h: nat, idx: nat)

  datatype State = State(entries: seq<Entry>, headers: seq<Header>, writer: Writer, readers: seq<Reader>)

  datatype Action =
    | BeginInsert(x: nat)
    | Write(memory: bool)
    | Fill(b: BlockId)
    | Abandon
    | UndoNull(x: nat)
    | Return
    | BeginLookup(t: nat, lo: nat, hi: nat)
    | Read(t: nat)
    | Skip(t: nat)
    | Release(t: nat)

  /** The key of block `x`: its first element's index, as an index_t. */
  function BaseWord(cfg: Config, x: int): nat
    requires cfg.indexBits > 0
  {
    Wrap(cfg.Half(), x * cfg.BlockSize())
  }

  /** The slot `get_block_index_index_for_index` computes for block `x` from a tail slot
      and its key. The signed difference is divided by an unsigned BLOCK_SIZE, which
      makes the division one of the wrapped difference. */
  function FindSlot(cfg: Config, x: nat, tail: nat, key: nat, capacity: nat): nat
    requires cfg.indexBits > 0 && capacity > 0
  {
    Rem(tail + Quot(Wrap(cfg.Half(), BaseWord(cfg, x) - key), cfg.BlockSize()), capacity)
  }

  predicate HeaderShape(h: Header, entries: nat) {
    && |h.index| == h.capacity && h.tail < h.capacity
    && (forall i :: 0 <= i < |h.index| ==> h.index[i] < entries)
    && (forall i, j :: 0 <= i < j < |h.index| ==> h.index[i] != h.index[j])
  }

  predicate Shape(s: State) {
    && (forall j :: 0 <= j < |s.headers| ==> HeaderShape(s.headers[j], |s.entries|))
    && (s.writer.PutKey? || s.writer.PutTail? ==> s.headers != [] && s.writer.slot < Current(s).capacity)
    && (s.writer.Inserted? || s.writer.Drop? ==> s.headers != [] && s.writer.e < |s.entries|)
    && (s.writer.Grow? || s.writer.Unwind? ==> s.headers != [])
    && (forall t :: 0 <= t < |s.readers| ==> ReaderShape(s, s.readers[t]))
  }

  predicate ReaderShape(s: State, r: Reader) {
    match r
    case Off => true
    case LoadHeader(_, _) => s.headers != []
    case LoadTail(_, _, h) => h < |s.headers|
    case LoadKey(_, _, h, tail) => h < |s.headers| && tail < s.headers[h].capacity
    case Found(_, _, h, idx) => h < |s.headers| && idx < s.headers[h].capacity
  }

  function Current(s: State): Header
    requires s.headers != []
  {
    s.headers[|s.headers| - 1]
  }

  predicate Enabled(s: State, a: Action) {
    match a
    case BeginInsert(_) => s.writer == Rest
    case Write(_) => s.writer.Look? || s.writer.Grow? || s.writer.PutKey? || s.writer.PutTail? || s.writer.Drop? || s.writer.Unwind?
    case Fill(_) => s.writer.Inserted?
    case Abandon => s.writer.Inserted?
    case UndoNull(_) => s.writer == Rest && s.headers != []
    case Return => s.writer == Refused
    case BeginLookup(t, _, _) => t < |s.readers| && s.readers[t] == Off && s.headers != []
    case Read(t) => t < |s.readers| && (s.readers[t].LoadHeader? || s.readers[t].LoadTail? || s.readers[t].LoadKey?)
    case Skip(t) => t < |s.readers| && s.readers[t].Found?
    case Release(t) => t < |s.readers| && s.readers[t].Found?
  }

  function SetValue(s: State, e: EntryId, v: Value): State
    requires e < |s.entries|
  {
    s.(entries := s.entries[e := s.entries[e].(value := v)])
  }

  function SetKey(s: State, e: EntryId, key: nat): State
    requires e < |s.entries|
  {
    s.(entries := s.entries[e := s.entries[e].(key := key)])
  }

  function SetTail(s: State, tail: nat): State
    requires s.headers != []
  {
    s.(headers := s.headers[|s.headers| - 1 := Current(s).(tail := tail)])
  }

  function SetReader(s: State, t: nat, r: Reader): State
    requires t < |s.readers|
  {
    s.(readers := s.readers[t := r])
  }

  /** A consumer's move to the next block of its claim. */
  function NextBlock(r: Reader, capacity: nat): Reader
    requires r.Found? && capacity > 0
  {
    if r.lo < r.hi then r.(lo := r.lo + 1, idx := Rem(r.idx + 1, capacity)) else Off
  }

  /** new_block_index over a full index: the old slots from the one after the tail on,
      then as many new ones. */
  function GrownHeader(h: Header, entries: nat): Header
    requires 0 < h.capacity == |h.index|
  {
    Header(2 * h.capacity, h.capacity - 1,
           seq(h.capacity, i requires 0 <= i < h.capacity => h.index[Rem(h.tail + 1 + i, h.capacity)])
           + FreshIds(entries, h.capacity))
  }

  /** The ids of `n` entries from `first` on. */
  function FreshIds(first: EntryId, n: nat): (r: seq<EntryId>)
    ensures |r| == n && forall i :: 0 <= i < n ==> r[i] == first + i
  {
    if n == 0 then [] else FreshIds(first, n - 1) + [first + n - 1]
  }

  function FreshEntries(n: nat): seq<Entry> {
    seq(n, _ => Entry(INVALID_BLOCK_BASE, Garbage))
  }

  /** The index after construction; the first allocation may fail. */
  function Initial(cfg: Config, memory: bool, threads: nat): State {
    var capacity := Pow2(cfg.initialBits);
    State(if memory then FreshEntries(capacity) else [],
          if memory then [Header(capacity, capacity - 1, FreshIds(0, capacity))] else [],
          Rest, seq(threads, _ => Off))
  }

  function Apply(cfg: Config, s: State, a: Action): State
    requires cfg.indexBits > 0 && Shape(s) && Enabled(s, a)
  {
    match a
    case BeginInsert(x) => s.(writer := Look(x))
    case Write(memory) => Advance(cfg, s, memory)
    case Fill(b) => SetValue(s, s.writer.e, Ptr(b)).(writer := Rest)
    case Abandon =>
      SetTail(s, Rem(Current(s).tail - 1, Current(s).capacity)).(writer := Drop(s.writer.x, s.writer.e))
    case UndoNull(x) =>
      var h := Current(s);
      SetValue(s, h.index[FindSlot(cfg, x, h.tail, s.entries[h.index[h.tail]].key, h.capacity)], Null).(writer := Unwind(x))
    case Return => s.(writer := Rest)
    case BeginLookup(t, lo, hi) => SetReader(s, t, LoadHeader(lo, hi))
    case Read(t) =>
      (match s.readers[t]
       case LoadHeader(lo, hi) => SetReader(s, t, LoadTail(lo, hi, |s.headers| - 1))
       case LoadTail(lo, hi, h) => SetReader(s, t, LoadKey(lo, hi, h, s.headers[h].tail))
       case LoadKey(lo, hi, h, tail) =>
         var key := s.entries[s.headers[h].index[tail]].key;
         SetReader(s, t, Found(lo, hi, h, FindSlot(cfg, lo, tail, key, s.headers[h].capacity))))
    case Skip(t) => SetReader(s, t, NextBlock(s.readers[t], s.headers[s.readers[t].h].capacity))
    case Release(t) =>
      var r := s.readers[t];
      SetReader(SetValue(s, s.headers[r.h].index[r.idx], Null), t, NextBlock(r, s.headers[r.h].capacity))
  }

  /** The writer's steps inside insert_block_index_entry and after a failed requisition. */
  function Advance(cfg: Config, s: State, memory: bool): State
    requires cfg.indexBits > 0 && Shape(s) && Enabled(s, Write(memory))
  {
    match s.writer
    case Look(x) =>
      if s.headers == [] then s.(writer := Refused)
      else
        var slot := Rem(Current(s).tail + 1, Current(s).capacity);
        var entry := s.entries[Current(s).index[slot]];
        s.(writer := if entry.key == INVALID_BLOCK_BASE || entry.value == Null then PutKey(x, slot) else Grow(x))
    case Grow(x) =>
      if !memory then s.(writer := Refused)
      else
        var h := GrownHeader(Current(s), |s.entries|);
        s.(entries := s.entries + FreshEntries(Current(s).capacity), headers := s.headers + [h],
           writer := PutKey(x, Rem(h.tail + 1, h.capacity)))
    case PutKey(x, slot) =>
      SetKey(s, Current(s).index[slot], BaseWord(cfg, x)).(writer := PutTail(x, slot))
    case PutTail(x, slot) =>
      SetTail(s, slot).(writer := Inserted(x, Current(s).index[slot]))
    case Drop(x, e) => SetValue(s, e, Null).(writer := Rest)
    case Unwind(x) => SetTail(s, Rem(Current(s).tail - 1, Current(s).capacity)).(writer := Rest)
  }

  // ------------------------------------------------------------------ slot arithmetic

  /** In a header whose slots are numbered from `off`, block `x` sits here. */
  function Slot(off: nat, capacity: nat, x: int): (r: nat)
    requires capacity > 0
    ensures r < capacity
  {
    Rem(off + x, capacity)
  }

  lemma TurnOfBlocks(cfg: Config)
    requires cfg.Valid()
    ensures 2 * cfg.Half() == cfg.Turn() * cfg.BlockSize()
  {
    Pow2Splits(cfg.blockBits, cfg.indexBits);
  }

  /** Keys determine block numbers up to whole turns. */
  lemma BaseWordScaled(cfg: Config, x: int)
    requires cfg.Valid()
    ensures BaseWord(cfg, x) == Rem(x, cfg.Turn()) * cfg.BlockSize()
  {
    TurnOfBlocks(cfg);
    RemScale(x, cfg.Turn(), cfg.BlockSize());
  }

  /** The wrapped difference of two keys, divided by the block size. */
  lemma KeyDistance(cfg: Config, x: int, y: int)
    requires cfg.Valid()
    ensures Quot(Wrap(cfg.Half(), BaseWord(cfg, x) - BaseWord(cfg, y)), cfg.BlockSize()) == Rem(x - y, cfg.Turn())
  {
    var B, T := cfg.BlockSize(), cfg.Turn();
    TurnOfBlocks(cfg);
    BaseWordScaled(cfg, x);
    BaseWordScaled(cfg, y);
    ScaledDifference(x, y, T, B);
    QuotUnique(Rem(x - y, T) * B, B, Rem(x - y, T));
  }

  lemma ScaledDifference(x: int, y: int, T: nat, B: nat)
    requires T > 0 && B > 0
    ensures T * B > 0 && Rem(Rem(x, T) * B - Rem(y, T) * B, T * B) == Rem(x - y, T) * B
  {
    hide Rem;
    var dx: int, dy: int := Rem(x, T), Rem(y, T);
    assert dx * B - dy * B == (dx - dy) * B;
    RemScale(dx - dy, T, B);
    RemAdd(x, -dy, T);
    var q := Turns(y, T);
    RemShift(x - dy, -q, T);
    assert -q * T == -(q * T);
  }

  /** The lookup arithmetic finds, from the tail slot of any block `y` and its key, the
      slot of any block `x`, on either side, if and only if the capacity divides the
      number of block bases in a turn. */
  lemma FindSlotExact(cfg: Config, off: nat, bits: nat)
    requires cfg.Valid()
    ensures FindsAll(cfg, off, bits) <==> cfg.blockBits + bits <= cfg.indexBits
  {
    if cfg.blockBits + bits <= cfg.indexBits {
      forall x: nat, y: int ensures FindsSlot(cfg, off, bits, x, y) {
        FindSlotFits(cfg, off, bits, x, y);
      }
    } else {
      Pow2Monotone(cfg.indexBits - cfg.blockBits + 1, bits);
      OneTurnApart(cfg, off, bits, 0);
      assert !FindsSlot(cfg, off, bits, cfg.Turn(), 0);
    }
  }

  ghost predicate FindsSlot(cfg: Config, off: nat, bits: nat, x: nat, y: int)
    requires cfg.indexBits > 0
  {
    FindSlot(cfg, x, Slot(off, Pow2(bits), y), BaseWord(cfg, y), Pow2(bits)) == Slot(off, Pow2(bits), x)
  }

  ghost predicate FindsAll(cfg: Config, off: nat, bits: nat)
    requires cfg.indexBits > 0
  {
    forall x: nat, y: int :: FindsSlot(cfg, off, bits, x, y)
  }

  /** Any two blocks a whole turn apart have one key, so that in an index that holds both
      the lookup of one finds the other. */
  lemma OneTurnApart(cfg: Config, off: nat, bits: nat, x: nat)
    requires cfg.Valid() && cfg.Turn() < Pow2(bits)
    ensures BaseWord(cfg, x + cfg.Turn()) == BaseWord(cfg, x)
    ensures FindSlot(cfg, x + cfg.Turn(), Slot(off, Pow2(bits), x), BaseWord(cfg, x), Pow2(bits)) == Slot(off, Pow2(bits), x)
    ensures FindSlot(cfg, x, Slot(off, Pow2(bits), x + cfg.Turn()), BaseWord(cfg, x + cfg.Turn()), Pow2(bits)) == Slot(off, Pow2(bits), x + cfg.Turn())
    ensures Slot(off, Pow2(bits), x) != Slot(off, Pow2(bits), x + cfg.Turn())
  {
    var T, cap := cfg.Turn(), Pow2(bits);
    SameKey(cfg, x);
    KeyDistance(cfg, x, x);
    RemUnique(0, T, 0, 0);
    hide Rem, Quot, Wrap;
    RemUnique(Slot(off, cap, x), cap, 0, Slot(off, cap, x));
    RemUnique(Slot(off, cap, x + T), cap, 0, Slot(off, cap, x + T));
    SlotsDiffer(off, cap, x, x + T);
  }

  lemma SameKey(cfg: Config, x: nat)
    requires cfg.Valid()
    ensures BaseWord(cfg, x + cfg.Turn()) == BaseWord(cfg, x)
  {
    hide Rem;
    RemShift(x, 1, cfg.Turn());
    BaseWordScaled(cfg, x);
    BaseWordScaled(cfg, x + cfg.Turn());
  }

  lemma FindSlotFits(cfg: Config, off: nat, bits: nat, x: nat, y: int)
    requires cfg.Valid() && cfg.blockBits + bits <= cfg.indexBits
    ensures FindSlot(cfg, x, Slot(off, Pow2(bits), y), BaseWord(cfg, y), Pow2(bits)) == Slot(off, Pow2(bits), x)
  {
    KeyDistance(cfg, x, y);
    Pow2Splits(bits, cfg.indexBits - cfg.blockBits);
    SlotByDistance(off, x, y, Pow2(bits), Pow2(cfg.indexBits - cfg.blockBits - bits));
  }

  lemma SlotByDistance(off: nat, x: int, y: int, cap: nat, k: nat)
    requires cap > 0 && k > 0
    ensures cap * k > 0 && Rem(Slot(off, cap, y) + Rem(x - y, cap * k), cap) == Slot(off, cap, x)
  {
    hide Rem;
    ProductPositive(cap, k);
    var d: int := Rem(x - y, cap * k);
    RemOfMultiple(x - y, cap, k);
    RemAdd(off + y, d, cap);
    RemAdd(d, off + y, cap);
    RemAdd(x - y, off + y, cap);
  }

  /** Blocks less than a capacity apart sit in different slots. */
  lemma SlotsDiffer(off: nat, capacity: nat, x: int, y: int)
    requires capacity > 0 && x != y && x - y < capacity && y - x < capacity
    ensures Slot(off, capacity, x) != Slot(off, capacity, y)
  {
    RemDiffer(off + x, off + y, capacity);
  }

  /** A block and the one a whole capacity before it share a slot; neighbours are one apart. */
  lemma SlotStep(off: nat, capacity: nat, x: int)
    requires capacity > 0
    ensures Slot(off, capacity, x + 1) == Rem(Slot(off, capacity, x) + 1, capacity)
    ensures Slot(off, capacity, x - 1) == Rem(Slot(off, capacity, x) - 1, capacity)
    ensures Slot(off, capacity, x - capacity) == Slot(off, capacity, x)
  {
    RemAdd(off + x, 1, capacity);
    RemAdd(off + x, -1, capacity);
    RemShift(off + x, -1, capacity);
  }

  // ------------------------------------------------------------------ invariant

  /** What the index means. `home[x]` is the entry that block `x` was given; every header
      numbers its slots from `offs` and agrees with `home` on blocks `keep` up to its top;
      `last` is the block of the current tail slot; blocks up to `committed` are not
      rewound; `live` maps the blocks in use. */
  datatype Map = Map(bits: seq<nat>, offs: seq<nat>, tops: seq<int>, home: seq<EntryId>,
                     keep: nat, last: int, committed: int, live: map<nat, BlockId>)

  /** The last block that the `j`-th of `n` headers knows of. */
  function TopOf(n: nat, m: Map, j: nat): int
    requires j < |m.tops|
  {
    if j + 1 == n then |m.home| - 1 else m.tops[j]
  }

  ghost predicate AtHome(h: Header, off: nat, home: seq<EntryId>, x: nat) {
    x < |home| && 0 < h.capacity == |h.index| && h.index[Slot(off, h.capacity, x)] == home[x]
  }

  /** A header over `entries` entries, whose tail slot is that of block `at`. */
  ghost predicate HeaderInv(cfg: Config, h: Header, entries: nat, bits: nat, off: nat, keep: nat, top: int, at: int, home: seq<EntryId>) {
    && HeaderShape(h, entries)
    && h.capacity == Pow2(bits) && cfg.blockBits + bits <= cfg.indexBits
    && h.tail == Slot(off, h.capacity, at)
    && top < |home| && top - keep < h.capacity
    && (forall x: nat :: keep <= x <= top ==> AtHome(h, off, home, x))
  }

  ghost predicate Headers(cfg: Config, headers: seq<Header>, entries: nat, m: Map) {
    && |m.bits| == |m.offs| == |m.tops| == |headers|
    && (forall j :: 0 <= j < |headers| ==>
          HeaderInv(cfg, headers[j], entries, m.bits[j], m.offs[j], m.keep, TopOf(|headers|, m, j),
                    if j + 1 == |headers| then m.last else m.tops[j], m.home))
  }

  ghost predicate Keys(cfg: Config, entries: seq<Entry>, home: seq<EntryId>, keep: nat)
    requires cfg.indexBits > 0
  {
    && (forall x: nat :: keep <= x < |home| ==> home[x] < |entries| && entries[home[x]].key == BaseWord(cfg, x))
    && (forall x, y :: keep <= x < y < |home| ==> home[x] != home[y])
  }

  ghost predicate HomeOfLive(home: seq<EntryId>, live: map<nat, BlockId>, e: EntryId) {
    exists k :: k in live && k < |home| && home[k] == e
  }

  /** The entries that hold a block are the homes of the blocks in use. */
  ghost predicate Lives(entries: seq<Entry>, home: seq<EntryId>, keep: nat, live: map<nat, BlockId>) {
    && (forall k <- live :: keep <= k < |home| && home[k] < |entries| && entries[home[k]].value == Ptr(live[k]))
    && (forall k <- live, l <- live :: k != l ==> live[k] != live[l])
    && (forall e :: 0 <= e < |entries| && entries[e].value.Ptr? ==> HomeOfLive(home, live, e))
  }

  ghost predicate Range(m: Map) {
    -1 <= m.committed <= m.last < |m.home| && m.keep <= m.committed + 1
  }

  /** The block an insertion under way is about to own, once its key is stored. */
  ghost predicate Pending(w: Writer, x: nat) {
    (w.PutTail? || w.Inserted? || w.Drop?) && w.x == x
  }

  ghost predicate PendingEntry(w: Writer, home: seq<EntryId>, e: EntryId) {
    (w.PutTail? || w.Inserted? || w.Drop?) && w.x < |home| && home[w.x] == e
  }

  /** Blocks inserted since the last commit are in use, or cleared, or pending; only the
      pending entry holds a value never stored to under a valid key. */
  ghost predicate Uncommitted(entries: seq<Entry>, w: Writer, home: seq<EntryId>, committed: int, live: map<nat, BlockId>) {
    && (forall z: nat :: committed < z < |home| ==>
          z in live || Pending(w, z) || (home[z] < |entries| && entries[home[z]].value == Null))
    && (forall e :: 0 <= e < |entries| && entries[e].value == Garbage ==>
          entries[e].key == INVALID_BLOCK_BASE || PendingEntry(w, home, e))
  }

  /** Of the blocks not committed exactly those below `x` are in use. */
  ghost predicate SettledBelow(m: Map, x: int) {
    forall z: nat :: m.committed < z < |m.home| ==> (z in m.live <==> z < x)
  }

  ghost predicate Settled(m: Map) {
    SettledBelow(m, m.last + 1)
  }

  /** The entry in `slot` may be given to block `x`: if that is a new block, the entry's
      only retained block is the one a whole capacity behind, and it is committed. */
  ghost predicate Reusable(h: Header, entries: seq<Entry>, m: Map, slot: nat, x: nat) {
    && slot < |h.index| && h.index[slot] < |entries|
    && !entries[h.index[slot]].value.Ptr?
    && (x == |m.home| ==> forall z: nat :: m.keep <= z < |m.home| && m.home[z] == h.index[slot] ==> z == x - h.capacity && z <= m.committed)
  }

  ghost predicate WriterInv(cfg: Config, headers: seq<Header>, entries: seq<Entry>, w: Writer, m: Map) {
    && (w.Rest? || w.Refused? || w.Look? || headers != [])
    && |m.offs| == |m.bits| == |headers|
    && var c := |headers| - 1;
       match w
       case Rest => true
       case Refused => Settled(m)
       case Look(x) => x == m.last + 1 && Settled(m)
       case Grow(x) =>
         && x == m.last + 1 == |m.home| && Settled(m)
         && Pow2(m.bits[c]) <= x && cfg.blockBits + m.bits[c] + 1 <= cfg.indexBits
       case PutKey(x, slot) =>
         && x == m.last + 1 && Settled(m)
         && slot == Slot(m.offs[c], Pow2(m.bits[c]), x) && Reusable(headers[c], entries, m, slot, x)
       case PutTail(x, slot) =>
         && x == m.last + 1 && x < |m.home| && SettledBelow(m, x)
         && slot == Slot(m.offs[c], Pow2(m.bits[c]), x) && slot < |headers[c].index|
         && headers[c].index[slot] == m.home[x] < |entries| && !entries[m.home[x]].value.Ptr?
       case Inserted(x, e) =>
         && x == m.last && m.committed < x < |m.home| && SettledBelow(m, x)
         && e == m.home[x] < |entries| && !entries[e].value.Ptr?
       case Drop(x, e) =>
         && x == m.last + 1 < |m.home| && SettledBelow(m, x)
         && e == m.home[x] < |entries| && !entries[e].value.Ptr?
       case Unwind(x) => m.committed < m.last
  }

  ghost predicate Pinned(m: Map, lo: nat, hi: nat) {
    lo <= hi <= m.committed && forall k :: lo <= k <= hi ==> k in m.live
  }

  /** `tail` is the slot, in the `h`-th of `n` headers, of some block at or beyond `hi`. */
  ghost predicate TailSeen(n: nat, m: Map, h: nat, tail: nat, hi: nat)
    requires h < |m.tops| == |m.bits| == |m.offs|
  {
    exists x: nat :: hi <= x <= TopOf(n, m, h) && tail == Slot(m.offs[h], Pow2(m.bits[h]), x)
  }

  /** A consumer's blocks stay in use, and whatever it has loaded still leads to them. */
  ghost predicate ReaderInv(n: nat, m: Map, r: Reader) {
    && (!r.Off? ==> Pinned(m, r.lo, r.hi) && n > 0)
    && (r.LoadTail? || r.LoadKey? || r.Found? ==>
          r.h < n == |m.tops| == |m.bits| == |m.offs| && r.hi <= TopOf(n, m, r.h))
    && (r.LoadKey? ==> TailSeen(n, m, r.h, r.tail, r.hi))
    && (r.Found? ==> r.idx == Slot(m.offs[r.h], Pow2(m.bits[r.h]), r.lo))
  }

  ghost predicate Readers(n: nat, m: Map, readers: seq<Reader>) {
    forall t :: 0 <= t < |readers| ==> ReaderInv(n, m, readers[t])
  }

  ghost predicate Inv(cfg: Config, s: State, m: Map) {
    && cfg.Valid()
    && Range(m)
    && (s.headers == [] ==> m.home == [])
    && Headers(cfg, s.headers, |s.entries|, m)
    && Keys(cfg, s.entries, m.home, m.keep)
    && Lives(s.entries, m.home, m.keep, m.live)
    && Uncommitted(s.entries, s.writer, m.home, m.committed, m.live)
    && WriterInv(cfg, s.headers, s.entries, s.writer, m)
    && Readers(|s.headers|, m, s.readers)
  }

  lemma CurrentInv(cfg: Config, s: State, m: Map)
    requires Headers(cfg, s.headers, |s.entries|, m) && s.headers != []
    ensures var c := |s.headers| - 1;
            HeaderInv(cfg, Current(s), |s.entries|, m.bits[c], m.offs[c], m.keep, |m.home| - 1, m.last, m.home)
  {
  }

  lemma InvHasShape(cfg: Config, s: State, m: Map)
    requires Inv(cfg, s, m)
    ensures Shape(s) && |m.bits| == |m.offs| == |m.tops| == |s.headers|
  {
    forall t | 0 <= t < |s.readers| ensures ReaderShape(s, s.readers[t]) {
      assert ReaderInv(|s.headers|, m, s.readers[t]);
    }
    if s.headers != [] {
      CurrentInv(cfg, s, m);
    }
  }

  function InitialMap(cfg: Config, memory: bool): Map {
    Map(if memory then [cfg.initialBits] else [], if memory then [0] else [], if memory then [-1] else [],
        [], 0, -1, -1, map[])
  }

  lemma InitialInv(cfg: Config, memory: bool, threads: nat)
    requires cfg.Valid()
    ensures Inv(cfg, Initial(cfg, memory, threads), InitialMap(cfg, memory))
  {
    var capacity := Pow2(cfg.initialBits);
    RemUnique(-1, capacity, -1, capacity - 1);
  }

  // ------------------------------------------------------------------ what is kept

  /** Only values change: clearing entry `e` takes the block that had it, if any, out of use. */
  lemma ClearedLives(entries: seq<Entry>, home: seq<EntryId>, keep: nat, live: map<nat, BlockId>, e: EntryId, live': map<nat, BlockId>)
    requires Lives(entries, home, keep, live) && e < |entries|
    requires live'.Keys <= live.Keys && (forall k <- live' :: live'[k] == live[k])
    requires forall k <- live :: k in live' <==> home[k] != e
    ensures Lives(entries[e := entries[e].(value := Null)], home, keep, live')
  {
    var entries' := entries[e := entries[e].(value := Null)];
    forall f | 0 <= f < |entries'| && entries'[f].value.Ptr? ensures HomeOfLive(home, live', f) {
      assert HomeOfLive(home, live, f);
      var k :| k in live && k < |home| && home[k] == f;
      assert k in live';
    }
  }

  /** Changing keys only, or appending entries without a block, or lengthening the homes. */
  lemma LivesKept(entries: seq<Entry>, home: seq<EntryId>, keep: nat, live: map<nat, BlockId>, entries': seq<Entry>, home': seq<EntryId>, keep': nat)
    requires Lives(entries, home, keep, live)
    requires |entries| <= |entries'| && (forall e :: 0 <= e < |entries| ==> entries'[e].value == entries[e].value)
    requires forall e :: |entries| <= e < |entries'| ==> !entries'[e].value.Ptr?
    requires home <= home' && forall k <- live :: keep' <= k
    ensures Lives(entries', home', keep', live)
  {
    forall e | 0 <= e < |entries'| && entries'[e].value.Ptr? ensures HomeOfLive(home', live, e) {
      assert HomeOfLive(home, live, e);
      var k :| k in live && k < |home| && home[k] == e;
      assert home'[k] == e;
    }
  }

  /** Consumers are unaffected while their blocks stay in use and their headers keep their numbering. */
  lemma ReadersKept(n: nat, m: Map, n': nat, m': Map, readers: seq<Reader>)
    requires Readers(n, m, readers) && n <= n' && m'.committed >= m.committed
    requires |m.tops| == |m.bits| == |m.offs| == n && |m'.tops| == |m'.bits| == |m'.offs| == n'
    requires m.bits <= m'.bits && m.offs <= m'.offs
    requires forall j :: 0 <= j < n ==> TopOf(n, m, j) <= TopOf(n', m', j)
    requires forall t, k: nat :: 0 <= t < |readers| && Pins(readers[t], k) && k in m.live ==> k in m'.live
    ensures Readers(n', m', readers)
  {
    forall t | 0 <= t < |readers| ensures ReaderInv(n', m', readers[t]) {
      var r := readers[t];
      assert ReaderInv(n, m, r);
      if !r.Off? {
        forall k | r.lo <= k <= r.hi ensures k in m'.live { assert Pins(r, k); }
      }
    }
  }

  predicate Pins(r: Reader, k: nat) {
    !r.Off? && r.lo <= k <= r.hi
  }

  // ------------------------------------------------------------------ steps of the writer

  /** What the producer and the consumers must respect when they use the index. */
  ghost predicate Guard(cfg: Config, s: State, m: Map, a: Action) {
    match a
    case BeginInsert(x) => x == m.last + 1 && Settled(m)
    case Write(_) => s.writer.Look? ==> Near(cfg, m, s.writer.x)
    case Fill(b) => b !in m.live.Values
    case UndoNull(x) => x in m.live && m.committed < x && m.committed < m.last
    case BeginLookup(_, lo, hi) => Pinned(m, lo, hi)
    case Release(t) => t < |s.readers| && s.readers[t].Found? && forall u :: 0 <= u < |s.readers| && u != t ==> !Pins(s.readers[u], s.readers[t].lo)
    case _ => true
  }

  /** Every block in use lies less than a whole turn of the index behind block `x`. */
  ghost predicate Near(cfg: Config, m: Map, x: nat) {
    cfg.indexBits > 0 && forall k <- m.live :: (x - k) * cfg.BlockSize() < 2 * cfg.Half()
  }

  /** How the meaning of the index changes in a step. */
  ghost function MapAfter(cfg: Config, s: State, m: Map, a: Action): Map
    requires cfg.indexBits > 0 && Shape(s) && Enabled(s, a) && |m.bits| == |m.offs| == |m.tops| == |s.headers|
  {
    match a
    case Write(memory) =>
      (match s.writer
       case Grow(x) => if memory then GrownMap(m, GrownOffset(x, Current(s).capacity)) else m
       case PutKey(x, slot) => KeyedMap(m, x, Current(s).index[slot], Current(s).capacity)
       case PutTail(x, _) => m.(last := x)
       case Unwind(_) => m.(last := m.last - 1)
       case _ => m)
    case Fill(b) => m.(live := m.live[s.writer.x := b])
    case Abandon => m.(last := m.last - 1)
    case UndoNull(x) => m.(live := m.live - {x})
    case Release(t) => m.(live := m.live - {s.readers[t].lo})
    case _ => m
  }

  function Product(a: nat, b: nat): nat {
    a * b
  }

  /** The slot numbering of a grown header: block `x - capacity` comes to slot 0. */
  function GrownOffset(x: nat, capacity: nat): nat {
    if x >= capacity > 0 then Product(x - capacity, 2 * capacity - 1) else 0
  }

  function GrownMap(m: Map, off: nat): Map
    requires |m.bits| == |m.tops| > 0
  {
    var c := |m.bits| - 1;
    m.(bits := m.bits + [m.bits[c] + 1], offs := m.offs + [off], tops := m.tops[c := m.last] + [m.last])
  }

  /** Block `x` is given entry `e`; if it is new, the block that had it before is let go. */
  function KeyedMap(m: Map, x: nat, e: EntryId, capacity: nat): Map {
    if x == |m.home| then m.(home := m.home + [e], keep := if x - capacity >= m.keep then x - capacity + 1 else m.keep) else m
  }

  /** No block base is the invalid key. */
  lemma BaseIsEven(cfg: Config, x: int)
    requires cfg.Valid()
    ensures BaseWord(cfg, x) != INVALID_BLOCK_BASE
  {
    BaseWordScaled(cfg, x);
    assert cfg.BlockSize() == 2 * Pow2(cfg.blockBits - 1);
    NotOne(Rem(x, cfg.Turn()), cfg.BlockSize());
  }

  lemma NotOne(d: nat, b: nat)
    requires b >= 2
    ensures d * b != 1
  {
    if d >= 1 {
      assert d * b >= 1 * b;
    }
  }

  /** In the current header, the slot for a new block is the slot of the block a whole
      capacity earlier, and of no other retained block. */
  lemma OccupantIsCapacityBehind(cfg: Config, s: State, m: Map, x: nat, z: nat)
    requires s.headers != [] && Headers(cfg, s.headers, |s.entries|, m)
    requires x == |m.home| && m.keep <= z < |m.home| && Current(s).capacity > 0
    requires var slot := Slot(m.offs[|s.headers| - 1], Current(s).capacity, x);
             slot < |Current(s).index| && Current(s).index[slot] == m.home[z]
    ensures z == x - Current(s).capacity
  {
    var off, h := m.offs[|s.headers| - 1], Current(s);
    CurrentInv(cfg, s, m);
    assert AtHome(h, off, m.home, z);
    if x - z < h.capacity {
      SlotsDiffer(off, h.capacity, x, z);
    }
  }

  /** What the code finds in the slot after the tail: an entry that can be reused, or a
      block in use one whole capacity behind. */
  lemma SlotAfterTail(cfg: Config, s: State, m: Map, x: nat)
    requires Inv(cfg, s, m) && s.writer == Look(x) && s.headers != []
    ensures var off, h := m.offs[|s.headers| - 1], Current(s);
            && h.capacity == Pow2(m.bits[|s.headers| - 1]) == |h.index|
            && Rem(h.tail + 1, h.capacity) == Slot(off, h.capacity, x)
            && var e := h.index[Slot(off, h.capacity, x)];
            && e < |s.entries|
            && (if s.entries[e].key == INVALID_BLOCK_BASE || s.entries[e].value == Null
                then Reusable(h, s.entries, m, Slot(off, h.capacity, x), x)
                else x == |m.home| && x - h.capacity in m.live)
  {
    hide Rem, Quot, Readers, FindSlot;
    var off, h := m.offs[|s.headers| - 1], Current(s);
    CurrentInv(cfg, s, m);
    SlotStep(off, h.capacity, m.last);
    var e := h.index[Slot(off, h.capacity, x)];
    if x < |m.home| {
      assert AtHome(h, off, m.home, x);
      assert s.entries[e].value == Null;
    } else {
      forall z: nat | m.keep <= z < |m.home| && m.home[z] == e
        ensures z == x - h.capacity && s.entries[e].key != INVALID_BLOCK_BASE && (z in m.live || z <= m.committed)
      {
        OccupantIsCapacityBehind(cfg, s, m, x, z);
        BaseIsEven(cfg, z);
      }
      if s.entries[e].value.Ptr? {
        assert HomeOfLive(m.home, m.live, e);
      }
    }
  }

  /** An index that spans less than a turn spans at most half of it, and can double. */
  lemma GrowthFits(cfg: Config, bits: nat)
    requires cfg.Valid() && cfg.blockBits + bits <= cfg.indexBits
    ensures Pow2(bits) * cfg.BlockSize() < 2 * cfg.Half() <==> cfg.blockBits + bits + 1 <= cfg.indexBits
  {
    Pow2Splits(bits, cfg.blockBits + bits);
    assert 2 * cfg.Half() == Pow2(cfg.indexBits);
    if cfg.blockBits + bits < cfg.indexBits {
      Pow2Monotone(cfg.blockBits + bits, cfg.indexBits - 1);
    }
  }

  /** When the code is about to double the index, lookups in the doubled one will be right
      for all blocks if and only if no block in use lies a whole turn behind. */
  lemma DoublingSoundIffNear(cfg: Config, s: State, m: Map, off: nat)
    requires Inv(cfg, s, m) && Shape(s) && s.writer.Look? && Apply(cfg, s, Write(true)).writer.Grow?
    ensures |m.bits| == |s.headers| > 0
    ensures FindsAll(cfg, off, m.bits[|s.headers| - 1] + 1) <==> Near(cfg, m, s.writer.x)
  {
    hide Rem, Quot, FindsAll, Pow2, Near, Inv, Shape, Apply;
    FullWhenGrowing(cfg, s, m);
    var bits := m.bits[|s.headers| - 1];
    GrowthFits(cfg, bits);
    FindSlotExact(cfg, off, bits + 1);
    NearIfOldestIs(cfg, m, s.writer.x, Pow2(bits));
  }

  /** The index is about to be doubled: its oldest block in use lies a capacity behind. */
  lemma FullWhenGrowing(cfg: Config, s: State, m: Map)
    requires Inv(cfg, s, m) && Shape(s) && s.writer.Look? && Apply(cfg, s, Write(true)).writer.Grow?
    ensures |m.bits| == |s.headers| > 0 && cfg.Valid()
    ensures var bits := m.bits[|s.headers| - 1];
            && cfg.blockBits + bits <= cfg.indexBits
            && s.writer.x - Pow2(bits) in m.live && forall k <- m.live :: s.writer.x - k <= Pow2(bits)
  {
    hide Rem, Quot, Keys, Readers, Slot, BaseWord, Uncommitted, Pow2;
    SlotAfterTail(cfg, s, m, s.writer.x);
    CurrentInv(cfg, s, m);
  }

  lemma NearIfOldestIs(cfg: Config, m: Map, x: nat, cap: nat)
    requires cfg.Valid() && x - cap in m.live && forall k <- m.live :: x - k <= cap
    ensures Near(cfg, m, x) <==> cap * cfg.BlockSize() < 2 * cfg.Half()
  {
    var B := cfg.BlockSize();
    hide Pow2;
    forall k <- m.live ensures (x - k) * B <= cap * B {
      Distribute(x - k, cap - (x - k), B);
      assert (cap - (x - k)) * B >= 0;
    }
    assert (x - (x - cap)) * B == cap * B;
  }

  /** Only the writer's place changes. */
  lemma WriterMoves(cfg: Config, s: State, m: Map, w: Writer)
    requires Inv(cfg, s, m) && WriterInv(cfg, s.headers, s.entries, w, m)
    requires forall z: nat :: Pending(w, z) <==> Pending(s.writer, z)
    ensures Inv(cfg, s.(writer := w), m)
  {
  }

  /** The slot after the tail can be reused, or it holds a block in use one whole
      capacity behind, and then the code grows the index. */
  lemma LookWriter(cfg: Config, s: State, m: Map)
    requires Inv(cfg, s, m) && s.writer.Look? && Guard(cfg, s, m, Write(true)) && Shape(s)
    ensures WriterInv(cfg, s.headers, s.entries, Apply(cfg, s, Write(true)).writer, m)
  {
    hide Rem, Quot, Headers, Keys, Lives, Readers, Slot, BaseWord, Uncommitted;
    if s.headers != [] {
      var c, x, cap := |s.headers| - 1, s.writer.x, Current(s).capacity;
      SlotAfterTail(cfg, s, m, x);
      if Apply(cfg, s, Write(true)).writer.Grow? {
        assert (x - (x - cap)) * cfg.BlockSize() < 2 * cfg.Half();
        CurrentInv(cfg, s, m);
        GrowthFits(cfg, m.bits[c]);
      }
    }
  }

  lemma StepLook(cfg: Config, s: State, m: Map)
    requires Inv(cfg, s, m) && s.writer.Look? && Guard(cfg, s, m, Write(true))
    ensures Shape(s) && Apply(cfg, s, Write(true)) == Apply(cfg, s, Write(false))
    ensures Inv(cfg, Apply(cfg, s, Write(true)), m)
  {
    hide Rem, Quot, Headers, Keys, Lives, Readers, Uncommitted, WriterInv;
    InvHasShape(cfg, s, m);
    LookWriter(cfg, s, m);
    WriterMoves(cfg, s, m, Apply(cfg, s, Write(true)).writer);
  }

  // ------------------------------------------------------------------ storing a key

  /** What storing the key of block `x` does to the homes. */
  lemma KeyedHome(cfg: Config, s: State, m: Map)
    requires Inv(cfg, s, m) && s.writer.PutKey?
    ensures s.headers != [] && s.writer.slot < |Current(s).index|
    ensures var x, e := s.writer.x, Current(s).index[s.writer.slot];
            var m' := KeyedMap(m, x, e, Current(s).capacity);
            && x < |m'.home| && m'.home[x] == e < |s.entries| && !s.entries[e].value.Ptr?
            && m.home <= m'.home && |m'.home| <= |m.home| + 1
            && m.keep <= m'.keep <= m.committed + 1
            && (forall k <- m.live :: m'.keep <= k)
            && (forall z: nat :: m'.keep <= z < |m'.home| && z != x ==> z < |m.home| && m'.home[z] == m.home[z] != e)
            && |m'.home| - 1 - m'.keep < Current(s).capacity
            && AtHome(Current(s), m.offs[|s.headers| - 1], m'.home, x)
  {
    hide Rem, Quot, Readers, BaseWord;
    var x, slot, off := s.writer.x, s.writer.slot, m.offs[|s.headers| - 1];
    CurrentInv(cfg, s, m);
    var e := Current(s).index[slot];
    if x < |m.home| {
      assert AtHome(Current(s), off, m.home, x);
    } else {
      var y := x - Current(s).capacity;
      if m.keep <= y {
        assert AtHome(Current(s), off, m.home, y);
        SlotStep(off, Current(s).capacity, x);
        assert m.home[y] == e;
      }
    }
  }

  lemma KeyedHeaders(cfg: Config, s: State, m: Map)
    requires Inv(cfg, s, m) && s.writer.PutKey? && Shape(s)
    ensures var m' := MapAfter(cfg, s, m, Write(true));
            Headers(cfg, s.headers, |s.entries|, m') && Readers(|s.headers|, m', s.readers)
  {
    hide Rem, Quot, Slot, Keys, Lives, Uncommitted, BaseWord;
    KeyedHome(cfg, s, m);
    var n, m' := |s.headers|, MapAfter(cfg, s, m, Write(true));
    forall j | 0 <= j < n
      ensures HeaderInv(cfg, s.headers[j], |s.entries|, m'.bits[j], m'.offs[j], m'.keep, TopOf(n, m', j),
                        if j + 1 == n then m'.last else m'.tops[j], m'.home)
    {
      var at := if j + 1 == n then m.last else m.tops[j];
      assert HeaderInv(cfg, s.headers[j], |s.entries|, m.bits[j], m.offs[j], m.keep, TopOf(n, m, j), at, m.home);
      forall z: nat | m'.keep <= z <= TopOf(n, m', j) ensures AtHome(s.headers[j], m.offs[j], m'.home, z) {
        assert z <= TopOf(n, m, j) ==> AtHome(s.headers[j], m.offs[j], m.home, z);
      }
    }
    ReadersKept(n, m, n, m', s.readers);
  }

  lemma StepPutKey(cfg: Config, s: State, m: Map)
    requires Inv(cfg, s, m) && s.writer.PutKey?
    ensures Shape(s) && Inv(cfg, Apply(cfg, s, Write(true)), MapAfter(cfg, s, m, Write(true)))
  {
    hide Rem, Quot, Headers, Keys, Lives, Readers, BaseWord, Uncommitted, Slot;
    InvHasShape(cfg, s, m);
    hide Rem, Quot, Headers, Keys, Lives, Readers, BaseWord, Uncommitted;
    KeyedHeaders(cfg, s, m);
    KeyedHome(cfg, s, m);
    var s', m', e := Apply(cfg, s, Write(true)), MapAfter(cfg, s, m, Write(true)), Current(s).index[s.writer.slot];
    KeyedKeys(cfg, s.entries, m.home, m.keep, s.writer.x, e, m'.home, m'.keep);
    KeyedUncommitted(cfg, s.entries, s.writer, m.home, m.committed, m.live, s'.writer, e, m'.home);
    LivesKept(s.entries, m.home, m.keep, m.live, s'.entries, m'.home, m'.keep);
    assert SettledBelow(m', s.writer.x);
  }

  /** Every retained block keeps its key, and block `x` gets its own. */
  lemma KeyedKeys(cfg: Config, entries: seq<Entry>, home: seq<EntryId>, keep: nat, x: nat, e: EntryId, home': seq<EntryId>, keep': nat)
    requires cfg.Valid() && Keys(cfg, entries, home, keep) && home <= home' && keep <= keep'
    requires x < |home'| && home'[x] == e < |entries|
    requires forall z: nat :: keep' <= z < |home'| && z != x ==> z < |home| && home'[z] == home[z] != e
    ensures Keys(cfg, entries[e := entries[e].(key := BaseWord(cfg, x))], home', keep')
  {
    hide BaseWord;
    var entries' := entries[e := entries[e].(key := BaseWord(cfg, x))];
    forall z: nat | keep' <= z < |home'| ensures home'[z] < |entries'| && entries'[home'[z]].key == BaseWord(cfg, z) {
      assert z != x ==> home'[z] == home[z];
    }
    forall y: nat, z: nat | keep' <= y < z < |home'| ensures home'[y] != home'[z] {
      var a, b := home'[y], home'[z];
      assert y != x ==> y < |home| && home'[y] == home[y] != e;
      assert z != x ==> z < |home| && home'[z] == home[z] != e;
    }
  }

  lemma KeyedUncommitted(cfg: Config, entries: seq<Entry>, w: Writer, home: seq<EntryId>, committed: int, live: map<nat, BlockId>, w': Writer, e: EntryId, home': seq<EntryId>)
    requires cfg.Valid() && Uncommitted(entries, w, home, committed, live) && home <= home' && |home'| <= |home| + 1
    requires w.PutKey? && w'.PutTail? && w'.x == w.x < |home'| && home'[w.x] == e < |entries|
    requires |home| < |home'| ==> w.x == |home|
    ensures Uncommitted(entries[e := entries[e].(key := BaseWord(cfg, w.x))], w', home', committed, live)
  {
    hide BaseWord;
    var entries' := entries[e := entries[e].(key := BaseWord(cfg, w.x))];
    forall z: nat | committed < z < |home'|
      ensures z in live || Pending(w', z) || (home'[z] < |entries'| && entries'[home'[z]].value == Null)
    {
      assert z != w.x ==> z < |home| && home'[z] == home[z];
    }
  }

  // ------------------------------------------------------------------ moving the tail slot

  /** Moving the tail slot with the block it stands for. */
  lemma TailMoved(cfg: Config, s: State, m: Map, last: int)
    requires Headers(cfg, s.headers, |s.entries|, m) && s.headers != [] && Current(s).capacity > 0
    ensures Headers(cfg, SetTail(s, Slot(m.offs[|s.headers| - 1], Current(s).capacity, last)).headers, |s.entries|, m.(last := last))
  {
    var c, h := |s.headers| - 1, Current(s);
    var tail, m' := Slot(m.offs[c], h.capacity, last), m.(last := last);
    CurrentInv(cfg, s, m);
    var h' := h.(tail := tail);
    forall x: nat | m.keep <= x <= |m.home| - 1 ensures AtHome(h', m.offs[c], m.home, x) {
      assert AtHome(h, m.offs[c], m.home, x);
    }
    var headers := SetTail(s, tail).headers;
    forall j | 0 <= j < |headers|
      ensures HeaderInv(cfg, headers[j], |s.entries|, m.bits[j], m.offs[j], m.keep, TopOf(|headers|, m', j),
                        if j + 1 == |headers| then last else m.tops[j], m.home)
    {
      assert j < c ==> headers[j] == s.headers[j];
    }
  }

  lemma StepPutTail(cfg: Config, s: State, m: Map)
    requires Inv(cfg, s, m) && s.writer.PutTail?
    ensures Shape(s) && Inv(cfg, Apply(cfg, s, Write(true)), MapAfter(cfg, s, m, Write(true)))
  {
    hide Rem, Quot, Slot, Headers, Keys, Lives, Readers;
    InvHasShape(cfg, s, m);
    CurrentInv(cfg, s, m);
    TailMoved(cfg, s, m, s.writer.x);
    ReadersKept(|s.headers|, m, |s.headers|, m.(last := s.writer.x), s.readers);
  }

  lemma Rewound(cfg: Config, s: State, m: Map)
    requires Inv(cfg, s, m) && s.headers != []
    ensures Current(s).capacity > 0
    ensures var s' := SetTail(s, Rem(Current(s).tail - 1, Current(s).capacity));
            Headers(cfg, s'.headers, |s.entries|, m.(last := m.last - 1)) && Readers(|s'.headers|, m.(last := m.last - 1), s.readers)
  {
    CurrentInv(cfg, s, m);
    SlotStep(m.offs[|s.headers| - 1], Current(s).capacity, m.last);
    TailMoved(cfg, s, m, m.last - 1);
    ReadersKept(|s.headers|, m, |s.headers|, m.(last := m.last - 1), s.readers);
  }

  /** Rewinding the tail slot by one block, when the requisition of a block failed. */
  lemma StepAbandon(cfg: Config, s: State, m: Map)
    requires Inv(cfg, s, m) && s.writer.Inserted?
    ensures Shape(s) && Inv(cfg, Apply(cfg, s, Abandon), MapAfter(cfg, s, m, Abandon))
  {
    hide Rem, Quot, Slot, Headers, Keys, Lives, Readers;
    InvHasShape(cfg, s, m);
    Rewound(cfg, s, m);
  }

  /** Rewinding the tail slot by one block, in a rollback. */
  lemma StepUnwind(cfg: Config, s: State, m: Map)
    requires Inv(cfg, s, m) && s.writer.Unwind?
    ensures Shape(s) && Inv(cfg, Apply(cfg, s, Write(true)), MapAfter(cfg, s, m, Write(true)))
  {
    hide Rem, Quot, Slot, Headers, Keys, Lives, Readers;
    InvHasShape(cfg, s, m);
    Rewound(cfg, s, m);
  }

  // ------------------------------------------------------------------ storing a value

  /** Storing the block pointer makes the pending block live. */
  lemma StepFill(cfg: Config, s: State, m: Map, b: BlockId)
    requires Inv(cfg, s, m) && s.writer.Inserted? && Guard(cfg, s, m, Fill(b))
    ensures Shape(s) && Inv(cfg, Apply(cfg, s, Fill(b)), MapAfter(cfg, s, m, Fill(b)))
  {
    hide Rem, Quot, Lives, Readers, Slot, BaseWord;
    InvHasShape(cfg, s, m);
    FilledLives(cfg, s, m, b);
    ReadersKept(|s.headers|, m, |s.headers|, m.(live := m.live[s.writer.x := b]), s.readers);
  }

  lemma FilledLives(cfg: Config, s: State, m: Map, b: BlockId)
    requires Inv(cfg, s, m) && s.writer.Inserted? && b !in m.live.Values
    ensures s.writer.e < |s.entries|
    ensures Lives(SetValue(s, s.writer.e, Ptr(b)).entries, m.home, m.keep, m.live[s.writer.x := b])
  {
    hide Rem, Quot, Readers, Slot, BaseWord, Pow2, Headers, Keys;
    var x, e, live := s.writer.x, s.writer.e, m.live[s.writer.x := b];
    var entries := SetValue(s, e, Ptr(b)).entries;
    assert forall k <- m.live :: m.home[k] != e;
    assert forall k <- m.live :: m.live[k] in m.live.Values;
    forall f | 0 <= f < |entries| && entries[f].value.Ptr? ensures HomeOfLive(m.home, live, f) {
      if f == e {
        assert x in live && m.home[x] == f;
      } else {
        assert HomeOfLive(m.home, m.live, f);
        var k :| k in m.live && k < |m.home| && m.home[k] == f;
        assert k in live;
      }
    }
  }

  /** Clearing the pending entry after the tail was rewound. */
  lemma StepDrop(cfg: Config, s: State, m: Map)
    requires Inv(cfg, s, m) && s.writer.Drop?
    ensures Shape(s) && Inv(cfg, Apply(cfg, s, Write(true)), m)
  {
    InvHasShape(cfg, s, m);
    ClearedLives(s.entries, m.home, m.keep, m.live, s.writer.e, m.live);
  }

  /** The rollback of a bulk enqueue finds the entry of each block it had inserted. */
  lemma UndoFindsEntry(cfg: Config, s: State, m: Map, x: nat)
    requires Inv(cfg, s, m) && Enabled(s, UndoNull(x)) && Guard(cfg, s, m, UndoNull(x))
    ensures Shape(s) && x < |m.home| && m.home[x] < |s.entries|
    ensures Apply(cfg, s, UndoNull(x)) == SetValue(s, m.home[x], Null).(writer := Unwind(x))
  {
    InvHasShape(cfg, s, m);
    var c := |s.headers| - 1;
    CurrentInv(cfg, s, m);
    assert AtHome(Current(s), m.offs[c], m.home, m.last) && AtHome(Current(s), m.offs[c], m.home, x);
    FindSlotFits(cfg, m.offs[c], m.bits[c], x, m.last);
  }

  /** Clearing that entry takes the block out of use and nothing else. */
  lemma StepUndoNull(cfg: Config, s: State, m: Map, x: nat)
    requires Inv(cfg, s, m) && Enabled(s, UndoNull(x)) && Guard(cfg, s, m, UndoNull(x))
    ensures Shape(s) && Inv(cfg, Apply(cfg, s, UndoNull(x)), MapAfter(cfg, s, m, UndoNull(x)))
  {
    InvHasShape(cfg, s, m);
    UndoFindsEntry(cfg, s, m, x);
    hide Inv, Apply, Shape;
    UndoneInv(cfg, s, m, x);
  }

  lemma UndoneInv(cfg: Config, s: State, m: Map, x: nat)
    requires Inv(cfg, s, m) && s.writer.Rest? && s.headers != [] && x in m.live && m.committed < x && m.committed < m.last
    ensures m.home[x] < |s.entries|
    ensures Inv(cfg, SetValue(s, m.home[x], Null).(writer := Unwind(x)), m.(live := m.live - {x}))
  {
    InvHasShape(cfg, s, m);
    hide Rem, Quot, Slot, FindSlot, BaseWord, Readers, HeaderInv, TopOf;
    ClearedLives(s.entries, m.home, m.keep, m.live, m.home[x], m.live - {x});
    UndoneReaders(cfg, s, m, x);
  }

  /** No consumer needs a block that was never published. */
  lemma UndoneReaders(cfg: Config, s: State, m: Map, x: nat)
    requires Inv(cfg, s, m) && m.committed < x
    ensures Readers(|s.headers|, m.(live := m.live - {x}), s.readers)
  {
    InvHasShape(cfg, s, m);
    hide Rem, Quot, Slot, Keys, Lives, Uncommitted, WriterInv;
    var m' := m.(live := m.live - {x});
    forall t, k: nat | 0 <= t < |s.readers| && Pins(s.readers[t], k) && k in m.live ensures k in m'.live {
      assert ReaderInv(|s.headers|, m, s.readers[t]);
    }
    ReadersKept(|s.headers|, m, |s.headers|, m', s.readers);
  }

  // ------------------------------------------------------------------ growth

  /** A grown header has twice the slots, all different. */
  lemma GrownShape(h: Header, entries: nat)
    requires HeaderShape(h, entries) && h.capacity > 0
    ensures HeaderShape(GrownHeader(h, entries), entries + h.capacity)
  {
    var g := GrownHeader(h, entries);
    forall i | 0 <= i < |g.index| ensures g.index[i] == if i < h.capacity then h.index[Rem(h.tail + 1 + i, h.capacity)] else entries + i - h.capacity {
    }
    forall i, j | 0 <= i < j < |g.index| ensures g.index[i] != g.index[j] {
      if j < h.capacity {
        RemDiffer(h.tail + 1 + i, h.tail + 1 + j, h.capacity);
        var a, b := Rem(h.tail + 1 + i, h.capacity), Rem(h.tail + 1 + j, h.capacity);
        assert if a < b then h.index[a] != h.index[b] else h.index[b] != h.index[a];
      }
    }
  }

  /** In a grown header block `z` comes to slot `z - (x - capacity)`, where `x` is the
      block being inserted. */
  lemma GrownSlot(x: nat, capacity: nat, z: int)
    requires x >= capacity > 0 && x - capacity <= z < x + capacity
    ensures Slot(GrownOffset(x, capacity), 2 * capacity, z) == z - (x - capacity)
  {
    var y := x - capacity;
    assert GrownOffset(x, capacity) + z == y * (2 * capacity) + (z - y);
    RemUnique(GrownOffset(x, capacity) + z, 2 * capacity, y, z - y);
  }

  /** The slot `d + 1` places after that of `last` is that of the block as far after it, a whole turn earlier. */
  lemma SlotAfter(off: nat, capacity: nat, last: int, d: nat)
    requires capacity > 0
    ensures Rem(Slot(off, capacity, last) + 1 + d, capacity) == Slot(off, capacity, last + 1 + d - capacity)
  {
    RemAdd(off + last, 1 + d, capacity);
    RemShift(off + last + 1 + d, -1, capacity);
  }

  /** Copying the slots from the one after the tail keeps every retained block at home. */
  lemma GrownHome(cfg: Config, s: State, m: Map, z: nat)
    requires Inv(cfg, s, m) && s.writer.Grow? && m.keep <= z < |m.home|
    ensures AtHome(GrownHeader(Current(s), |s.entries|), GrownOffset(s.writer.x, Current(s).capacity), m.home, z)
  {
    hide Keys, Lives, Readers, Uncommitted, Rem, Quot;
    var x, c, h := s.writer.x, |s.headers| - 1, Current(s);
    CurrentInv(cfg, s, m);
    var y := x - h.capacity;
    assert AtHome(h, m.offs[c], m.home, z);
    GrownSlot(x, h.capacity, z);
    SlotAfter(m.offs[c], h.capacity, m.last, z - y);
    assert Rem(h.tail + 1 + (z - y), h.capacity) == Slot(m.offs[c], h.capacity, z);
  }

  lemma GrownHeaders(cfg: Config, s: State, m: Map)
    requires Inv(cfg, s, m) && s.writer.Grow?
    ensures Current(s).capacity > 0
    ensures Headers(cfg, s.headers + [GrownHeader(Current(s), |s.entries|)], |s.entries| + Current(s).capacity,
                    GrownMap(m, GrownOffset(s.writer.x, Current(s).capacity)))
  {
    hide Rem, Quot, Keys, Lives, Readers, Uncommitted, Slot;
    var c, x, h := |s.headers| - 1, s.writer.x, Current(s);
    CurrentInv(cfg, s, m);
    var off := GrownOffset(x, h.capacity);
    var m', headers, count := GrownMap(m, off), s.headers + [GrownHeader(h, |s.entries|)], |s.entries| + h.capacity;
    GrownShape(h, |s.entries|);
    GrownSlot(x, h.capacity, m.last);
    var g := headers[c + 1];
    forall z: nat | m.keep <= z <= |m.home| - 1 ensures AtHome(g, off, m.home, z) {
      GrownHome(cfg, s, m, z);
    }
    assert HeaderInv(cfg, headers[c + 1], count, m'.bits[c + 1], off, m.keep, |m.home| - 1, m.last, m.home);
    forall j | 0 <= j <= c
      ensures HeaderInv(cfg, headers[j], count, m'.bits[j], m'.offs[j], m.keep, TopOf(c + 2, m', j), m'.tops[j], m.home)
    {
      var at := if j == c then m.last else m.tops[j];
      assert HeaderInv(cfg, s.headers[j], |s.entries|, m.bits[j], m.offs[j], m.keep, TopOf(c + 1, m, j), at, m.home);
    }
  }

  lemma StepGrow(cfg: Config, s: State, m: Map)
    requires Inv(cfg, s, m) && s.writer.Grow?
    ensures Shape(s) && Inv(cfg, Apply(cfg, s, Write(true)), MapAfter(cfg, s, m, Write(true)))
  {
    hide Rem, Quot, Headers, Keys, Readers, Uncommitted;
    InvHasShape(cfg, s, m);
    GrownHeaders(cfg, s, m);
    GrownWriter(cfg, s, m);
    var s', m' := Apply(cfg, s, Write(true)), MapAfter(cfg, s, m, Write(true));
    LivesKept(s.entries, m.home, m.keep, m.live, s'.entries, m'.home, m'.keep);
    ReadersKept(|s.headers|, m, |s'.headers|, m', s.readers);
    GrownEntries(cfg, s, m, s');
  }

  lemma StepGrowFails(cfg: Config, s: State, m: Map)
    requires Inv(cfg, s, m) && s.writer.Grow?
    ensures Shape(s) && Inv(cfg, Apply(cfg, s, Write(false)), m)
  {
    InvHasShape(cfg, s, m);
    hide Rem, Quot, Headers, Keys, Lives, Readers, Uncommitted, Shape;
    WriterMoves(cfg, s, m, Refused);
  }

  lemma GrownEntries(cfg: Config, s: State, m: Map, s': State)
    requires cfg.Valid() && Keys(cfg, s.entries, m.home, m.keep)
    requires Uncommitted(s.entries, s.writer, m.home, m.committed, m.live) && s.writer.Grow? && s'.writer.PutKey?
    requires exists n: nat :: s'.entries == s.entries + FreshEntries(n)
    ensures Keys(cfg, s'.entries, m.home, m.keep)
    ensures Uncommitted(s'.entries, s'.writer, m.home, m.committed, m.live)
  {
  }

  /** The first new slot receives the block being inserted; its entry is fresh. */
  lemma GrownWriter(cfg: Config, s: State, m: Map)
    requires Inv(cfg, s, m) && s.writer.Grow? && Shape(s)
    ensures var s' := Apply(cfg, s, Write(true));
            WriterInv(cfg, s'.headers, s'.entries, s'.writer, MapAfter(cfg, s, m, Write(true)))
  {
    var x, cap := s.writer.x, Current(s).capacity;
    CurrentInv(cfg, s, m);
    GrownSlot(x, cap, x);
    RemUnique(cap, 2 * cap, 0, cap);
    assert GrownHeader(Current(s), |s.entries|).index[cap] == |s.entries|;
  }

  // ------------------------------------------------------------------ steps of the consumers

  /** Loading the header, then its tail, then the tail's key: whatever the writer does in
      between, the slot found is the one of the block looked up. */
  lemma ReadInv(cfg: Config, s: State, m: Map, t: nat)
    requires Inv(cfg, s, m) && Enabled(s, Read(t)) && Shape(s)
    ensures ReaderInv(|s.headers|, m, Apply(cfg, s, Read(t)).readers[t])
  {
    hide Rem, Quot, Uncommitted, WriterInv, BaseWord;
    var n, r := |s.headers|, s.readers[t];
    assert ReaderInv(n, m, r);
    if !r.LoadHeader? {
      var at := if r.h + 1 == n then m.last else m.tops[r.h];
      assert HeaderInv(cfg, s.headers[r.h], |s.entries|, m.bits[r.h], m.offs[r.h], m.keep, TopOf(n, m, r.h), at, m.home);
      if r.LoadTail? {
        assert r.hi <= at <= TopOf(n, m, r.h);
      } else {
        var y: nat :| r.hi <= y <= TopOf(n, m, r.h) && r.tail == Slot(m.offs[r.h], Pow2(m.bits[r.h]), y);
        assert r.hi in m.live;
        assert AtHome(s.headers[r.h], m.offs[r.h], m.home, y);
        FindSlotFits(cfg, m.offs[r.h], m.bits[r.h], r.lo, y);
      }
    }
  }

  lemma StepRead(cfg: Config, s: State, m: Map, t: nat)
    requires Inv(cfg, s, m) && Enabled(s, Read(t))
    ensures Shape(s) && Inv(cfg, Apply(cfg, s, Read(t)), m)
  {
    InvHasShape(cfg, s, m);
    ReadInv(cfg, s, m, t);
    ReaderMoves(cfg, s, m, t, Apply(cfg, s, Read(t)).readers[t]);
  }

  lemma NextBlockInv(cfg: Config, s: State, m: Map, r: Reader)
    requires Inv(cfg, s, m) && r.Found? && ReaderInv(|s.headers|, m, r)
    ensures s.headers[r.h].capacity == Pow2(m.bits[r.h]) && ReaderInv(|s.headers|, m, NextBlock(r, s.headers[r.h].capacity))
  {
    assert HeaderShape(s.headers[r.h], |s.entries|);
    SlotStep(m.offs[r.h], Pow2(m.bits[r.h]), r.lo);
  }

  /** What a lookup finds: the entry that holds the block's own key and its live block,
      as the code asserts. */
  lemma FoundEntry(cfg: Config, s: State, m: Map, t: nat)
    requires Inv(cfg, s, m) && t < |s.readers| && s.readers[t].Found?
    ensures var r := s.readers[t];
            && r.h < |s.headers| && r.idx < |s.headers[r.h].index| && r.lo in m.live && r.lo < |m.home|
            && var e := s.headers[r.h].index[r.idx];
            && e == m.home[r.lo] < |s.entries|
            && s.entries[e].key == BaseWord(cfg, r.lo)
            && s.entries[e].value == Ptr(m.live[r.lo])
  {
    var r := s.readers[t];
    assert ReaderInv(|s.headers|, m, r);
    assert HeaderShape(s.headers[r.h], |s.entries|);
    assert r.lo in m.live;
    assert AtHome(s.headers[r.h], m.offs[r.h], m.home, r.lo);
  }

  /** The key a lookup measures from is a block base, as the code asserts. */
  lemma TailKeyIsBase(cfg: Config, s: State, m: Map, t: nat)
    requires Inv(cfg, s, m) && t < |s.readers| && s.readers[t].LoadKey?
    ensures var r := s.readers[t];
            && r.h < |s.headers| && r.tail < |s.headers[r.h].index|
            && var e := s.headers[r.h].index[r.tail];
            && e < |s.entries| && s.entries[e].key != INVALID_BLOCK_BASE
  {
    hide Rem, Quot, Uncommitted, WriterInv, BaseWord;
    var n, r := |s.headers|, s.readers[t];
    assert ReaderInv(n, m, r);
    assert HeaderShape(s.headers[r.h], |s.entries|);
    var y: nat :| r.hi <= y <= TopOf(n, m, r.h) && r.tail == Slot(m.offs[r.h], Pow2(m.bits[r.h]), y);
    assert r.hi in m.live;
    assert AtHome(s.headers[r.h], m.offs[r.h], m.home, y);
    BaseIsEven(cfg, y);
  }

  /** Only one consumer's place changes. */
  lemma ReaderMoves(cfg: Config, s: State, m: Map, t: nat, r: Reader)
    requires Inv(cfg, s, m) && t < |s.readers| && ReaderInv(|s.headers|, m, r)
    ensures Inv(cfg, SetReader(s, t, r), m)
  {
    assert forall u :: 0 <= u < |s.readers| ==> ReaderInv(|s.headers|, m, s.readers[u]);
  }

  /** A committed block that no consumer needs any more is taken out of use. */
  lemma Retire(cfg: Config, s: State, m: Map, k: nat)
    requires Inv(cfg, s, m) && k in m.live && k <= m.committed
    requires forall t :: 0 <= t < |s.readers| ==> !Pins(s.readers[t], k)
    ensures m.home[k] < |s.entries|
    ensures Inv(cfg, SetValue(s, m.home[k], Null), m.(live := m.live - {k}))
  {
    var m' := m.(live := m.live - {k});
    ReadersKept(|s.headers|, m, |s.headers|, m', s.readers);
    ClearedLives(s.entries, m.home, m.keep, m.live, m.home[k], m'.live);
    ClearedWriter(cfg, s, m, k);
  }

  /** The consumer that emptied a block clears its entry. */
  lemma StepRelease(cfg: Config, s: State, m: Map, t: nat)
    requires Inv(cfg, s, m) && Enabled(s, Release(t)) && Guard(cfg, s, m, Release(t))
    ensures Shape(s) && Inv(cfg, Apply(cfg, s, Release(t)), MapAfter(cfg, s, m, Release(t)))
  {
    hide Rem, Quot, Headers, Keys, Lives, Uncommitted, WriterInv, Slot, BaseWord, FindSlot;
    InvHasShape(cfg, s, m);
    var r := s.readers[t];
    FoundEntry(cfg, s, m, t);
    assert ReaderInv(|s.headers|, m, r);
    var r' := NextBlock(r, s.headers[r.h].capacity);
    NextBlockInv(cfg, s, m, r);
    ReaderMoves(cfg, s, m, t, r');
    Retire(cfg, SetReader(s, t, r'), m, r.lo);
  }

  /** Clearing a committed block's entry does not disturb the writer. */
  lemma ClearedWriter(cfg: Config, s: State, m: Map, k: nat)
    requires Inv(cfg, s, m) && k in m.live && k <= m.committed
    ensures m.home[k] < |s.entries|
    ensures var s', m' := SetValue(s, m.home[k], Null), m.(live := m.live - {k});
            && WriterInv(cfg, s.headers, s'.entries, s.writer, m')
            && Uncommitted(s'.entries, s.writer, m.home, m.committed, m'.live)
  {
    hide Rem, Quot, Slot, BaseWord, Headers, Readers, SettledBelow, Settled;
    SettledWithout(m, k);
  }

  lemma SettledWithout(m: Map, k: nat)
    requires k <= m.committed
    ensures forall x :: SettledBelow(m, x) ==> SettledBelow(m.(live := m.live - {k}), x)
    ensures Settled(m) ==> Settled(m.(live := m.live - {k}))
  {
    var m' := m.(live := m.live - {k});
    assert forall x :: SettledBelow(m, x) ==> SettledBelow(m', x);
  }

  /** Publishing the tail index puts the blocks inserted so far beyond rewinding. */
  lemma StepCommit(cfg: Config, s: State, m: Map)
    requires Inv(cfg, s, m) && s.writer == Rest && Settled(m)
    ensures Inv(cfg, s, m.(committed := m.last)) && Settled(m.(committed := m.last))
  {
    ReadersKept(|s.headers|, m, |s.headers|, m.(committed := m.last), s.readers);
  }

  lemma StepSkip(cfg: Config, s: State, m: Map, t: nat)
    requires Inv(cfg, s, m) && Enabled(s, Skip(t))
    ensures Shape(s) && Inv(cfg, Apply(cfg, s, Skip(t)), m)
  {
    InvHasShape(cfg, s, m);
    hide Quot, Rem, Headers, Keys, Lives, Uncommitted, WriterInv;
    assert ReaderInv(|s.headers|, m, s.readers[t]);
    NextBlockInv(cfg, s, m, s.readers[t]);
    ReaderMoves(cfg, s, m, t, NextBlock(s.readers[t], s.headers[s.readers[t].h].capacity));
  }

  lemma StepBegin(cfg: Config, s: State, m: Map, a: Action)
    requires Inv(cfg, s, m) && Enabled(s, a) && Guard(cfg, s, m, a) && (a.BeginInsert? || a.Return? || a.BeginLookup?)
    ensures Shape(s) && Inv(cfg, Apply(cfg, s, a), m)
  {
    InvHasShape(cfg, s, m);
    hide Quot, Rem, Headers, Keys, Lives, Uncommitted, Readers;
    match a
    case BeginInsert(x) => WriterMoves(cfg, s, m, Look(x));
    case Return => WriterMoves(cfg, s, m, Rest);
    case BeginLookup(t, lo, hi) => ReaderMoves(cfg, s, m, t, LoadHeader(lo, hi));
  }

  lemma StepWrite(cfg: Config, s: State, m: Map, memory: bool)
    requires Inv(cfg, s, m) && Enabled(s, Write(memory)) && Guard(cfg, s, m, Write(memory))
    ensures Shape(s) && Inv(cfg, Apply(cfg, s, Write(memory)), MapAfter(cfg, s, m, Write(memory)))
  {
    hide Rem, Quot, Headers, Keys, Lives, Readers, Uncommitted, WriterInv, Shape, Slot, SetTail, SetKey, SetValue;
    InvHasShape(cfg, s, m);
    match s.writer
    case Look(_) => StepLook(cfg, s, m);
    case Grow(_) => if memory { StepGrow(cfg, s, m); } else { StepGrowFails(cfg, s, m); }
    case PutKey(_, _) => StepPutKey(cfg, s, m);
    case PutTail(_, _) => StepPutTail(cfg, s, m);
    case Drop(_, _) => StepDrop(cfg, s, m);
    case Unwind(_) => StepUnwind(cfg, s, m);
  }

  /** Every step of the writer and of the consumers keeps the invariant. */
  lemma StepInv(cfg: Config, s: State, m: Map, a: Action)
    requires Inv(cfg, s, m) && Enabled(s, a) && Guard(cfg, s, m, a)
    ensures Shape(s) && Inv(cfg, Apply(cfg, s, a), MapAfter(cfg, s, m, a))
  {
    InvHasShape(cfg, s, m);
    hide Inv, Shape, Apply, Quot, Rem, Guard;
    match a
    case BeginInsert(_) => StepBegin(cfg, s, m, a);
    case Return => StepBegin(cfg, s, m, a);
    case BeginLookup(_, _, _) => StepBegin(cfg, s, m, a);
    case Write(memory) => StepWrite(cfg, s, m, memory);
    case Fill(b) => StepFill(cfg, s, m, b);
    case Abandon => StepAbandon(cfg, s, m);
    case UndoNull(x) => StepUndoNull(cfg, s, m, x);
    case Read(t) => StepRead(cfg, s, m, t);
    case Skip(t) => StepSkip(cfg, s, m, t);
    case Release(t) => StepRelease(cfg, s, m, t);
  }

  // ------------------------------------------------------------------ what the invariant means

  /** Walking back from the tail slot, the keys are consecutive block bases as far as the
      oldest block in use, and each block in use is found at its own key. */
  lemma ConsecutiveKeys(cfg: Config, s: State, m: Map, d: nat)
    requires Inv(cfg, s, m) && s.headers != [] && m.keep + d <= m.last
    ensures var h := Current(s);
            && h.capacity > 0 && Rem(h.tail - d, h.capacity) < |h.index|
            && var e := h.index[Rem(h.tail - d, h.capacity)];
            && e < |s.entries| && s.entries[e].key == BaseWord(cfg, m.last - d)
            && (m.last - d in m.live ==> s.entries[e].value == Ptr(m.live[m.last - d]))
    ensures forall k <- m.live :: m.keep <= k
  {
    CurrentInv(cfg, s, m);
    SlotBack(m.offs[|s.headers| - 1], Current(s).capacity, m.last, d);
    EntryAtHome(cfg, s, m, m.last - d);
  }

  /** Walking back `d` slots leads to the block `d` before. */
  lemma SlotBack(off: nat, capacity: nat, x: int, d: int)
    requires capacity > 0
    ensures Rem(Slot(off, capacity, x) - d, capacity) == Slot(off, capacity, x - d)
  {
    RemAdd(off + x, -d, capacity);
  }

  lemma EntryAtHome(cfg: Config, s: State, m: Map, x: nat)
    requires Inv(cfg, s, m) && s.headers != [] && m.keep <= x <= m.last
    ensures var off, h := m.offs[|s.headers| - 1], Current(s);
            && 0 < h.capacity == |h.index|
            && var e := h.index[Slot(off, h.capacity, x)];
            && e < |s.entries| && s.entries[e].key == BaseWord(cfg, x)
            && (x in m.live ==> s.entries[e].value == Ptr(m.live[x]))
  {
    CurrentInv(cfg, s, m);
    assert AtHome(Current(s), m.offs[|s.headers| - 1], m.home, x);
  }
}
