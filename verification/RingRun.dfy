/** Runs of one sub-queue: what every atomic operation of the producer and of the consumers keeps, and what
    follows for lookups, for the life of a block and for the order of the elements. */
module RingRun {
  import opened Wrappers
  import opened Words
  import opened BlockRing
  import opened RingIndex
  import opened RingBlocks

  // ---------------------------------------------------------------- the producer's share of the invariant

  /** The number of the block after the one in the tail slot; `first` is the first block number that the
      running operation adds. */
  ghost function NextOf(p: Producer, first: nat): int {
    match p
    case Resting => first
    case Requisitioning(_, got, _) => first + |got| + 1
    case Linking(_, got, _, _) => first + |got| + 1
    case Rewinding(got, _) => first + |got| + 1
    case Undoing(got, k) => first + |got| - k
    case UndoRewinding(got, k) => first + |got| - k
    case Returning(_) => first
    case _ => first + |p.got|
  }

  /** The block number whose entry the producer is working on. */
  ghost function SkipOf(p: Producer, first: nat): int {
    match p
    case StoringTail(_, got, _) => first + |got|
    case Requisitioning(_, got, _) => first + |got|
    case Linking(_, got, _, _) => first + |got|
    case Rewinding(got, _) => first + |got|
    case Nulling(got, _) => first + |got|
    case _ => -1
  }

  /** The blocks it has taken that are not in the ring. */
  ghost function HandOf(p: Producer): seq<BlockId> {
    match p
    case Linking(_, _, _, block) => [block]
    case Undoing(got, k) => if k <= |got| then got[..k] else got
    case UndoRewinding(got, k) => if k < |got| then got[..k + 1] else got
    case Returning(got) => got
    case _ => []
  }

  /** How many blocks the check for room has admitted. */
  ghost function BudgetOf(p: Producer, first: nat): nat {
    match p
    case Resting => first
    case Checking(_, got) => first + |got|
    case Filling(_, got, _) => first + |got|
    case Rewinding(_, _) => first
    case Nulling(_, _) => first
    case Undoing(_, _) => first
    case UndoRewinding(_, _) => first
    case Returning(_) => first
    case _ => first + |p.got| + 1
  }

  /** The blocks got[k..] are in the ring from number first + k on, and nothing else is from first on. */
  ghost predicate Linked(held: map<nat, BlockId>, first: nat, got: seq<BlockId>, k: nat) {
    && (forall j :: k <= j < |got| ==> Find(held, first + j) == Some(got[j]))
    && (forall b <- held :: b < first || first + k <= b < first + |got|)
  }

  ghost predicate InCell(held: map<nat, BlockId>, blocks: map<BlockId, Block>, k: nat, v: Value) {
    && k / BLOCK_SIZE in held
    && held[k / BLOCK_SIZE] in blocks
    && |blocks[held[k / BLOCK_SIZE]].cells| == BLOCK_SIZE
    && blocks[held[k / BLOCK_SIZE]].cells[k % BLOCK_SIZE] == Some(v)
  }

  ghost predicate Filled(held: map<nat, BlockId>, blocks: map<BlockId, Block>, from: nat, vals: seq<Value>, n: nat) {
    n <= |vals| && forall j :: 0 <= j < n ==> InCell(held, blocks, from + j, vals[j])
  }

  ghost predicate TailBlockOk(held: map<nat, BlockId>, tail: nat, tailBlock: BlockId) {
    tail % BLOCK_SIZE != 0 ==> Find(held, tail / BLOCK_SIZE) == Some(tailBlock)
  }

  ghost predicate Adding(s: State, vals: seq<Value>, got: seq<BlockId>) {
    vals != [] && BlocksFor(s.tail) + |got| < BlocksFor(s.tail + |vals|) && Linked(s.held, BlocksFor(s.tail), got, 0)
  }

  ghost predicate AtEntry(s: State, got: seq<BlockId>, entry: nat) {
    && entry == EntryOf(Last(s.headers), BlocksFor(s.tail) + |got|)
    && Floor(s.headers, s.keyed, s.lo) <= BlocksFor(s.tail) + |got| < s.keyed
  }

  ghost predicate ProducerOk(s: State) {
    var first := BlocksFor(s.tail);
    match s.producer
    case Resting => Linked(s.held, first, [], 0)
    case Checking(vals, got) =>
      vals != [] && first + |got| <= BlocksFor(s.tail + |vals|) && Linked(s.held, first, got, 0)
    case Probing(vals, got) => Adding(s, vals, got)
    case Growing(vals, got) =>
      Adding(s, vals, got) && first + |got| == s.keyed && s.lo <= s.keyed - Last(s.headers).capacity
    case StoringKey(vals, got) =>
      Adding(s, vals, got) && (first + |got| == s.keyed ==> Find(s.held, s.keyed - Last(s.headers).capacity) == None)
    case StoringTail(vals, got, e) => Adding(s, vals, got) && AtEntry(s, got, e)
    case Requisitioning(vals, got, e) => Adding(s, vals, got) && AtEntry(s, got, e)
    case Linking(vals, got, e, block) =>
      Adding(s, vals, got) && AtEntry(s, got, e) && block in s.blocks && s.blocks[block].completed == 0
    case Filling(vals, got, n) =>
      && vals != [] && first + |got| == BlocksFor(s.tail + |vals|) && Linked(s.held, first, got, 0)
      && Filled(s.held, s.blocks, s.tail, vals, n)
    case Rewinding(got, e) => Linked(s.held, first, got, 0) && AtEntry(s, got, e)
    case Nulling(got, e) => Linked(s.held, first, got, 0) && AtEntry(s, got, e)
    case Undoing(got, k) =>
      k <= |got| && Linked(s.held, first, got, k) && (got != [] ==> Floor(s.headers, s.keyed, s.lo) <= first)
    case UndoRewinding(got, k) =>
      k < |got| && Linked(s.held, first, got, k + 1) && Floor(s.headers, s.keyed, s.lo) <= first
    case Returning(_) => Linked(s.held, first, [], 0)
  }

  // ---------------------------------------------------------------- the invariant

  ghost predicate IndexInv(s: State) {
    var first := BlocksFor(s.tail);
    && NextOf(s.producer, first) >= 0
    && Ring(s.headers, s.keys, s.keyed, s.lo, NextOf(s.producer, first))
    && Values(s.headers, s.keyed, s.lo, s.values, s.held, SkipOf(s.producer, first))
    && |s.values| == |s.keys|
  }

  ghost predicate OwnerInv(s: State) {
    && Owners(s.held, s.blocks.Keys, HandOf(s.producer), s.consumers)
    && Accounted(s.held, s.blocks.Keys, HandOf(s.producer), s.consumers)
    && Sized32(s.blocks)
    && TailBlockOk(s.held, s.tail, s.tailBlock)
  }

  ghost predicate ConsumerInv(s: State) {
    && Claims(s.consumers, s.head, s.done)
    && Looks(s.headers, s.keyed, s.consumers)
    && BlocksOk(s.held, s.done, s.consumers)
    && Released(s.held, s.done, BlocksFor(s.tail), s.consumers)
  }

  ghost predicate ContentInv(s: State) {
    && Counts(s.held, s.blocks, s.done)
    && Data(s.enqueued, s.held, s.blocks, s.read)
    && Reads(s.consumers, s.read, s.head, s.done, s.enqueued)
  }

  ghost predicate Room(s: State) {
    s.head <= s.tail == |s.enqueued| && BLOCK_SIZE * BudgetOf(s.producer, BlocksFor(s.tail)) - s.head < HALF
  }

  ghost predicate Inv(s: State) {
    IndexInv(s) && OwnerInv(s) && ConsumerInv(s) && ContentInv(s) && ProducerOk(s) && Room(s)
  }

  // ---------------------------------------------------------------- the producer checks and probes

  /** The check for room is exact: the words agree with the numbers they stand for. */
  lemma FullIff(x: nat, head: nat)
    requires head <= BLOCK_SIZE * x && BLOCK_SIZE * x - head < HALF
    ensures Full(x, head) <==> BLOCK_SIZE * x + BLOCK_SIZE - head >= HALF
    ensures !Less(W(BLOCK_SIZE * x), W(head))
  {
    MinusOfWords(head, BLOCK_SIZE * x + BLOCK_SIZE);
    SmallWord(head - (BLOCK_SIZE * x + BLOCK_SIZE));
    MinusOfWords(BLOCK_SIZE * x, head);
    SmallWord(BLOCK_SIZE * x - head);
  }

  lemma BlocksForBounds(n: nat)
    ensures n <= BLOCK_SIZE * BlocksFor(n) < n + BLOCK_SIZE
    ensures n % BLOCK_SIZE == 0 ==> BLOCK_SIZE * BlocksFor(n) == n
    ensures n % BLOCK_SIZE != 0 ==> BlocksFor(n) == n / BLOCK_SIZE + 1
  {
  }

  lemma CheckKeeps(s: State)
    requires Inv(s) && s.producer.Checking?
    ensures Inv(DoCheck(s))
  {
    hide Ring, Values, Owners, Accounted, Claims, Looks, BlocksOk, Released, Counts, Data, Reads, Linked, Floor, Full, BlocksFor;
    var Checking(vals, got) := s.producer;
    BlocksForBounds(s.tail);
    BlocksForBounds(s.tail + |vals|);
    if BlocksFor(s.tail) + |got| < BlocksFor(s.tail + |vals|) {
      FullIff(NextBlock(s, got), s.head);
      HandNone(got);
      if got != [] {
        LinkedAboveFloor(s.headers, s.keyed, s.lo, s.values, s.held, SkipOf(s.producer, BlocksFor(s.tail)), BlocksFor(s.tail), got, 0);
      }
    }
  }

  lemma HandNone(got: seq<BlockId>)
    ensures HandOf(Undoing(got, 0)) == []
  {
  }

  lemma LinkedAboveFloor(headers: seq<Header>, keyed: nat, lo: int, values: seq<Option<BlockId>>,
                         held: map<nat, BlockId>, skip: int, first: nat, got: seq<BlockId>, k: nat)
    requires Values(headers, keyed, lo, values, held, skip) && Linked(held, first, got, k) && k < |got|
    ensures Floor(headers, keyed, lo) <= first + k < keyed
  {
    assert Find(held, first + k) == Some(got[k]);
  }

  lemma LinkedNext(held: map<nat, BlockId>, first: nat, got: seq<BlockId>, k: nat)
    requires Linked(held, first, got, k)
    ensures first + |got| !in held
  {
  }

  lemma TailSlot(headers: seq<Header>, keys: seq<Word>, keyed: nat, lo: int, next: nat)
    requires Ring(headers, keys, keyed, lo, next)
    ensures Last(headers).capacity > 0 && NextSlot(Last(headers)) == Slot(Last(headers), next)
    ensures PreviousSlot(Last(headers)) == Slot(Last(headers), next - 2)
    ensures Last(headers).index[NextSlot(Last(headers))] == EntryOf(Last(headers), next) < |keys|
  {
    hide Slot, IsCapacity;
    ShapeLast(headers, |keys|);
    SlotStep(Last(headers), next - 1, 1);
    SlotStep(Last(headers), next - 1, -1);
    EntryBound(Last(headers), |keys|, next);
  }

  lemma ProbeKeeps(s: State)
    requires Inv(s) && Sized(s) && s.producer.Probing?
    ensures Inv(DoProbe(s))
  {
    hide Ring, Values, Owners, Accounted, Claims, Looks, BlocksOk, Released, Counts, Data, Reads, Linked, BlocksFor, Slot, EntryOf;
    var x := NextBlock(s, s.producer.got);
    TailSlot(s.headers, s.keys, s.keyed, s.lo, x);
    LinkedNext(s.held, BlocksFor(s.tail), s.producer.got, 0);
    ProbeTells(s.headers, s.keys, s.keyed, s.lo, x, s.values, s.held);
  }

  /** What the slot after the tail says about the block that had it before. */
  lemma ProbeTells(headers: seq<Header>, keys: seq<Word>, keyed: nat, lo: int, next: nat,
                   values: seq<Option<BlockId>>, held: map<nat, BlockId>)
    requires Ring(headers, keys, keyed, lo, next) && Values(headers, keyed, lo, values, held, -1) && |values| == |keys|
    requires next !in held
    ensures var e, h := EntryOf(Last(headers), next), Last(headers);
            && e < |keys|
            && (if keys[e] == INVALID_BLOCK_BASE || values[e] == None
                then next == keyed ==> Find(held, keyed - h.capacity) == None
                else next == keyed && lo <= keyed - h.capacity)
  {
    hide Slot, Base, IsCapacity, AllKnow, Find;
    var h := Last(headers);
    ShapeLast(headers, |keys|);
    EntryBound(h, |keys|, next);
    if next == keyed {
      var b := keyed - h.capacity;
      SlotWraps(h, b);
      assert EntryOf(h, next) == EntryOf(h, b);
      assert KeyOk(h, keys, lo, b);
      FindHeld(headers, keyed, lo, values, held, -1, b);
      BaseValid(b);
      if b >= lo {
        assert ValueOk(h, values, held, b);
      }
    } else {
      assert ValueOk(h, values, held, next);
      FindNone(held, next);
    }
  }

  lemma FindNone(held: map<nat, BlockId>, b: int)
    ensures (b < 0 || b !in held) ==> Find(held, b) == None
  {
  }

  lemma FindHeld(headers: seq<Header>, keyed: nat, lo: int, values: seq<Option<BlockId>>, held: map<nat, BlockId>, skip: int, b: int)
    requires Values(headers, keyed, lo, values, held, skip)
    ensures b < Floor(headers, keyed, lo) || b >= keyed ==> Find(held, b) == None
  {
  }

  /** A block's base index is even, so it is never taken for the invalid one. */
  lemma BaseValid(b: int)
    ensures Base(b) != INVALID_BLOCK_BASE
  {
    var q := BLOCK_SIZE * b / M;
    assert BLOCK_SIZE * b == M * q + Base(b);
    assert Base(b) == 2 * (16 * b - (M / 2) * q);
  }

  // ---------------------------------------------------------------- the producer changes the ring

  lemma GrowKeeps(s: State, ok: bool, junk: seq<Option<BlockId>>)
    requires Inv(s) && Sized(s) && s.producer.Growing?
    requires ok ==> |junk| == Current0(s).capacity && 2 * Current0(s).capacity * BLOCK_SIZE <= HALF
    ensures Inv(DoGrow(s, ok, junk))
  {
    hide Ring, Values, Owners, Accounted, Claims, Looks, BlocksOk, Released, Counts, Data, Reads, Linked, BlocksFor, Slot, EntryOf,
         Grown, Floor, Find, Filled, Extends;
    var Growing(vals, got) := s.producer;
    var s' := DoGrow(s, ok, junk);
    if ok {
      RingGrow(s.headers, s.keys, s.keyed, s.lo, s'.headers, s'.keys);
      ValuesFrame(s.headers, s'.headers, s.keyed, s.lo, s'.lo, s.values, s'.values, s.held, -1);
      GrownExtends(s, s');
      LooksExtend(s.headers, s.keyed, s'.headers, s.keyed, s.consumers);
      FindHeld(s'.headers, s.keyed, s'.lo, s'.values, s.held, -1, s.keyed - Last(s'.headers).capacity);
      GrownCapacity(s, s');
    } else {
      HandNone(got);
      if got != [] {
        LinkedAboveFloor(s.headers, s.keyed, s.lo, s.values, s.held, -1, BlocksFor(s.tail), got, 0);
      }
    }
  }

  lemma GrownCapacity(s: State, s': State)
    requires Sized(s) && s.producer.Growing? && exists junk :: s' == DoGrow(s, true, junk)
    ensures Last(s'.headers).capacity == 2 * Last(s.headers).capacity > 0
  {
  }

  lemma GrownExtends(s: State, s': State)
    requires Sized(s) && s.producer.Growing? && exists junk :: s' == DoGrow(s, true, junk)
    ensures Extends(s.headers, s.keyed, s'.headers, s.keyed)
  {
    hide Grown;
  }

  lemma StoreKeyKeeps(s: State)
    requires Inv(s) && Sized(s) && s.producer.StoringKey?
    ensures Inv(DoStoreKey(s))
  {
    hide Ring, Values, Owners, Accounted, Claims, Looks, BlocksOk, Released, Counts, Data, Reads, Linked, BlocksFor, Slot, EntryOf,
         Floor, Find, Filled;
    var StoringKey(vals, got) := s.producer;
    var x := NextBlock(s, got);
    TailSlot(s.headers, s.keys, s.keyed, s.lo, x);
    LinkedNext(s.held, BlocksFor(s.tail), got, 0);
    RingStoreKey(s.headers, s.keys, s.keyed, s.lo, x);
    FloorWithin(s.headers, s.keys, s.keyed, s.lo, x);
    FloorWithin(s.headers, DoStoreKey(s).keys, DoStoreKey(s).keyed, s.lo, x);
    ValuesStoreKey(s.headers, s.keys, s.keyed, s.lo, x, s.values, s.held);
    LooksExtend(s.headers, s.keyed, s.headers, DoStoreKey(s).keyed, s.consumers);
  }

  /** Moving the tail by one slot. */
  lemma SetTailKeeps(s: State, next: nat, tail: nat)
    requires IndexInv(s) && Looks(s.headers, s.keyed, s.consumers) && Floor(s.headers, s.keyed, s.lo) <= next <= s.keyed
    requires tail == Slot(Last(s.headers), next - 1)
    ensures s.headers != []
    ensures var headers' := SetTail(s, tail);
            && Ring(headers', s.keys, s.keyed, s.lo, next)
            && Values(headers', s.keyed, s.lo, s.values, s.held, SkipOf(s.producer, BlocksFor(s.tail)))
            && Looks(headers', s.keyed, s.consumers)
            && Floor(headers', s.keyed, s.lo) == Floor(s.headers, s.keyed, s.lo)
            && (forall b: int :: EntryOf(Last(headers'), b) == EntryOf(Last(s.headers), b))
            && Last(headers').capacity == Last(s.headers).capacity
  {
    hide Values, Looks, Slot, EntryOf, Floor, Keys, AllKnow, TailsOk, BlocksFor;
    var headers' := SetTail(s, tail);
    RingSetTail(s.headers, s.keys, s.keyed, s.lo, NextOf(s.producer, BlocksFor(s.tail)), next, headers');
    ValuesFrame(s.headers, headers', s.keyed, s.lo, s.lo, s.values, s.values, s.held, SkipOf(s.producer, BlocksFor(s.tail)));
    LooksExtend(s.headers, s.keyed, headers', s.keyed, s.consumers);
  }

  lemma StoreTailKeeps(s: State)
    requires Inv(s) && Sized(s) && s.producer.StoringTail?
    ensures Inv(DoStoreTail(s))
  {
    hide Ring, Values, Owners, Accounted, Claims, Looks, BlocksOk, Released, Counts, Data, Reads, Linked, BlocksFor, Slot, EntryOf,
         Floor, Find, Filled;
    var x := NextBlock(s, s.producer.got);
    TailSlot(s.headers, s.keys, s.keyed, s.lo, x);
    FloorWithin(s.headers, s.keys, s.keyed, s.lo, x);
    SetTailKeeps(s, x + 1, NextSlot(Current(s)));
  }

  lemma FloorWithin(headers: seq<Header>, keys: seq<Word>, keyed: nat, lo: int, next: nat)
    requires Ring(headers, keys, keyed, lo, next)
    ensures Floor(headers, keyed, lo) <= next <= keyed
  {
  }

  lemma RewindKeeps(s: State)
    requires Inv(s) && Sized(s) && s.producer.Rewinding?
    ensures Inv(DoRewind(s))
  {
    hide Ring, Values, Owners, Accounted, Claims, Looks, BlocksOk, Released, Counts, Data, Reads, Linked, BlocksFor, Slot, EntryOf,
         Floor, Find, Filled;
    var x := NextBlock(s, s.producer.got);
    TailSlot(s.headers, s.keys, s.keyed, s.lo, x + 1);
    SetTailKeeps(s, x, PreviousSlot(Current(s)));
  }

  lemma UndoRewindKeeps(s: State)
    requires Inv(s) && Sized(s) && s.producer.UndoRewinding?
    ensures Inv(DoUndoRewind(s))
  {
    hide Ring, Values, Owners, Accounted, Claims, Looks, BlocksOk, Released, Counts, Data, Reads, Linked, BlocksFor, Slot, EntryOf,
         Floor, Find, Filled;
    var UndoRewinding(got, k) := s.producer;
    var x := NextOf(s.producer, BlocksFor(s.tail));
    TailSlot(s.headers, s.keys, s.keyed, s.lo, x);
    FloorWithin(s.headers, s.keys, s.keyed, s.lo, x);
    SetTailKeeps(s, x - 1, PreviousSlot(Current(s)));
  }

  // ---------------------------------------------------------------- the producer takes, links and takes back blocks

  lemma EnqueueKeeps(s: State, vals: seq<Value>)
    requires Inv(s) && s.producer.Resting? && vals != []
    ensures Inv(s.(producer := Checking(vals, [])))
  {
    hide Ring, Values, Owners, Accounted, Claims, Looks, BlocksOk, Released, Counts, Data, Reads, Floor;
    BlocksForBounds(s.tail);
    BlocksForBounds(s.tail + |vals|);
  }

  lemma RequisitionKeeps(s: State, ok: bool, block: BlockId, cells: seq<Option<Value>>)
    requires Inv(s) && s.producer.Requisitioning? && (ok ==> block !in s.blocks && |cells| == BLOCK_SIZE)
    ensures Inv(DoRequisition(s, ok, block, cells))
  {
    hide Ring, Values, Owners, Accounted, Claims, Looks, BlocksOk, Released, Counts, Data, Reads, Linked, BlocksFor, EntryOf, Floor;
    var s' := DoRequisition(s, ok, block, cells);
    if ok {
      OwnersTake(s.held, s.blocks.Keys, s.consumers, block);
      assert s'.blocks.Keys == s.blocks.Keys + {block};
      RequisitionContents(s, block, cells);
    }
  }

  lemma RequisitionContents(s: State, block: BlockId, cells: seq<Option<Value>>)
    requires Counts(s.held, s.blocks, s.done) && Data(s.enqueued, s.held, s.blocks, s.read) && block !in s.blocks
    ensures Counts(s.held, s.blocks[block := Block(0, cells)], s.done)
    ensures Data(s.enqueued, s.held, s.blocks[block := Block(0, cells)], s.read)
  {
    hide Range;
  }

  lemma HeadBelow(s: State)
    requires Room(s)
    ensures s.head <= BLOCK_SIZE * BlocksFor(s.tail)
    ensures forall b: nat :: BLOCK_SIZE * b < |s.enqueued| ==> b < BlocksFor(s.tail)
  {
    BlocksForBounds(s.tail);
  }

  lemma DoneBelow(s: State)
    requires Claims(s.consumers, s.head, s.done)
    ensures forall k <- s.done :: k < s.head
  {
  }

  lemma LinkKeeps(s: State)
    requires Inv(s) && s.producer.Linking? && s.producer.entry < |s.values|
    ensures Inv(DoLink(s))
  {
    hide Ring, Values, Owners, Accounted, Claims, Looks, BlocksOk, Released, Counts, Data, Reads, BlocksFor, EntryOf, Floor;
    var Linking(vals, got, e, b) := s.producer;
    var s', x := DoLink(s), NextBlock(s, got);
    LinkedNext(s.held, BlocksFor(s.tail), got, 0);
    OwnersLink(s.held, s.blocks.Keys, s.consumers, b, x);
    ValuesStore(s.headers, s.keys, s.keyed, s.lo, x + 1, s.values, s.held, x, x, s'.held, -1);
    HeadBelow(s);
    ConsumersFrame(s.held, s'.held, s.done, s.head, BlocksFor(s.tail), s.consumers);
    LinkContents(s, s', x);
    TailBlockBelow(s.tail);
  }

  lemma TailBlockBelow(tail: nat)
    ensures tail % BLOCK_SIZE != 0 ==> tail / BLOCK_SIZE < BlocksFor(tail)
  {
  }

  lemma LinkContents(s: State, s': State, x: nat)
    requires Room(s) && Claims(s.consumers, s.head, s.done) && Counts(s.held, s.blocks, s.done)
    requires Data(s.enqueued, s.held, s.blocks, s.read) && x >= BlocksFor(s.tail)
    requires s.producer.Linking? && s.producer.entry < |s.values| && s' == DoLink(s) && x == NextBlock(s, s.producer.got)
    requires s.producer.block in s.blocks && s.blocks[s.producer.block].completed == 0 && x !in s.held
    ensures Counts(s'.held, s'.blocks, s'.done) && Data(s'.enqueued, s'.held, s'.blocks, s'.read)
  {
    hide BlocksFor, Range, Claims, BudgetOf;
    HeadBelow(s);
    DoneBelow(s);
    NothingDoneAbove(s.done, s.head, x);
    CountsHeld(s.held, s.blocks, s.done);
    ContentsFrame(s.held, s'.held, s.blocks, s.blocks, s.done, s.enqueued, s.read);
  }

  lemma CountsHeld(held: map<nat, BlockId>, blocks: map<BlockId, Block>, done: set<nat>)
    requires Counts(held, blocks, done)
    ensures forall b <- held :: held[b] in blocks
  {
  }

  lemma NullKeeps(s: State)
    requires Inv(s) && s.producer.Nulling? && s.producer.entry < |s.values|
    ensures Inv(DoNull(s))
  {
    hide Ring, Values, Owners, Accounted, Claims, Looks, BlocksOk, Released, Counts, Data, Reads, BlocksFor, EntryOf, Floor, Linked;
    var Nulling(got, e) := s.producer;
    var x := NextBlock(s, got);
    LinkedNext(s.held, BlocksFor(s.tail), got, 0);
    ValuesStore(s.headers, s.keys, s.keyed, s.lo, x, s.values, s.held, x, x, s.held, -1);
    HandNone(got);
    if got != [] {
      LinkedAboveFloor(s.headers, s.keyed, s.lo, s.values, s.held, x, BlocksFor(s.tail), got, 0);
    }
  }

  /** The entry that a failed enqueue_bulk clears is that of the block it is taking back, found from the tail
      even when the tail has already been rewound past it. */
  lemma UndoLands(s: State)
    requires Sized(s) && s.producer.Undoing? && s.producer.undone < |s.producer.got| && IndexInv(s) && ProducerOk(s)
    ensures var h, b := Last(s.headers), BlocksFor(s.tail) + s.producer.undone;
            && SlotFor(s, b) < |h.index| && h.index[SlotFor(s, b)] == EntryOf(h, b)
            && Floor(s.headers, s.keyed, s.lo) <= b < s.keyed
            && b in s.held && s.held[b] == s.producer.got[s.producer.undone]
  {
    hide Values, Owners, Accounted, Claims, Looks, BlocksOk, Released, Counts, Data, Reads, BlocksFor, Slot, Keys, AllKnow, LookupSlot,
         IsCapacity;
    var Undoing(got, k) := s.producer;
    var first, h := BlocksFor(s.tail), Last(s.headers);
    var b, t := first + k, first + |got| - k - 1;
    assert Find(s.held, first + k) == Some(got[k]);
    ShapeLast(s.headers, |s.keys|);
    CapacityBounds(h.capacity);
    LinkedAboveFloor(s.headers, s.keyed, s.lo, s.values, s.held, -1, first, got, k);
    EntryBound(h, |s.keys|, t);
    EntryBound(h, |s.keys|, b);
    KeyInPlace(s.headers, s.keys, s.keyed, s.lo, t + 1, |s.headers| - 1, t);
    LookupFinds(h, |s.keys|, t, b, b * BLOCK_SIZE);
  }

  lemma UndoKeeps(s: State)
    requires Inv(s) && Sized(s) && s.producer.Undoing?
    ensures Inv(DoUndo(s))
  {
    hide Ring, Values, Owners, Accounted, Claims, Looks, BlocksOk, Released, Counts, Data, Reads, BlocksFor, EntryOf, Floor, SlotFor;
    var Undoing(got, k) := s.producer;
    var s' := DoUndo(s);
    if k < |got| {
      UndoLands(s);
      var b := BlocksFor(s.tail) + k;
      OwnersUndo(s.held, s.blocks.Keys, HandOf(s.producer), s.consumers, b);
      assert got[..k] + [got[k]] == got[..k + 1];
      ValuesStore(s.headers, s.keys, s.keyed, s.lo, NextOf(s.producer, BlocksFor(s.tail)), s.values, s.held, -1, b, s'.held, -1);
      HeadBelow(s);
      ConsumersFrame(s.held, s'.held, s.done, s.head, BlocksFor(s.tail), s.consumers);
      CountsHeld(s.held, s.blocks, s.done);
      ContentsFrame(s.held, s'.held, s.blocks, s.blocks, s.done, s.enqueued, s.read);
      TailBlockBelow(s.tail);
      UndoLinked(s.held, BlocksFor(s.tail), got, k);
    } else {
      assert got[..k] == got;
    }
  }

  lemma UndoLinked(held: map<nat, BlockId>, first: nat, got: seq<BlockId>, k: nat)
    requires Linked(held, first, got, k) && k < |got|
    ensures Linked(held - {first + k}, first, got, k + 1)
  {
  }

  lemma ReturnKeeps(s: State)
    requires Inv(s) && s.producer.Returning?
    ensures Inv(DoReturn(s))
  {
    hide Ring, Values, Owners, Accounted, Claims, Looks, BlocksOk, Released, Counts, Data, Reads, BlocksFor, EntryOf, Floor, Linked;
    var got := s.producer.got;
    if got != [] {
      OwnersReturn(s.held, s.blocks.Keys, got, s.consumers);
      assert (s.blocks - {got[0]}).Keys == s.blocks.Keys - {got[0]};
      DropContents(s, got[0]);
    }
  }

  /** Giving up a block that is not in the ring. */
  lemma DropContents(s: State, id: BlockId)
    requires Counts(s.held, s.blocks, s.done) && Data(s.enqueued, s.held, s.blocks, s.read) && !IsHeld(s.held, id)
    ensures Counts(s.held, s.blocks - {id}, s.done) && Data(s.enqueued, s.held, s.blocks - {id}, s.read)
  {
    hide Range;
    forall b | b in s.held
      ensures s.held[b] != id
    {
    }
  }

  // ---------------------------------------------------------------- the producer fills and publishes

  /** The block that takes element i is the one in the ring under its number. */
  lemma BlockOfIsHeld(s: State, vals: seq<Value>, got: seq<BlockId>, i: nat)
    requires Linked(s.held, BlocksFor(s.tail), got, 0) && TailBlockOk(s.held, s.tail, s.tailBlock)
    requires BlocksFor(s.tail) + |got| == BlocksFor(s.tail + |vals|) && s.tail <= i < s.tail + |vals|
    ensures Find(s.held, i / BLOCK_SIZE) == Some(BlockOf(s, got, i))
  {
    var b, first := i / BLOCK_SIZE, BlocksFor(s.tail);
    BlockRange(s.tail, |vals|, i);
    if b >= first {
      assert Find(s.held, first + (b - first)) == Some(got[b - first]);
    }
  }

  lemma BlockRange(tail: nat, n: nat, i: nat)
    requires tail <= i < tail + n
    ensures i / BLOCK_SIZE < BlocksFor(tail + n)
    ensures i / BLOCK_SIZE < BlocksFor(tail) ==> tail % BLOCK_SIZE != 0 && i / BLOCK_SIZE == tail / BLOCK_SIZE
  {
  }

  lemma SameElement(i: nat, k: nat)
    requires i / BLOCK_SIZE == k / BLOCK_SIZE && i % BLOCK_SIZE == k % BLOCK_SIZE
    ensures i == k
  {
  }

  /** Writing one cell of a block in the ring touches one element. */
  lemma WriteCell(held: map<nat, BlockId>, ids: set<BlockId>, hand: seq<BlockId>, cs: seq<Consumer>, blocks: map<BlockId, Block>,
                  i: nat, v: Option<Value>)
    requires Owners(held, ids, hand, cs) && ids == blocks.Keys && Sized32(blocks) && i / BLOCK_SIZE in held
    ensures var blocks' := Write(blocks, held[i / BLOCK_SIZE], i % BLOCK_SIZE, v);
            && blocks'.Keys == blocks.Keys && Sized32(blocks')
            && (v.Some? ==> InCell(held, blocks', i, v.value))
            && (forall k: nat, x {:trigger InCell(held, blocks', k, x)} :: k != i && InCell(held, blocks, k, x) ==> InCell(held, blocks', k, x))
            && (forall id <- blocks :: blocks'[id].completed == blocks[id].completed)
  {
    hide FreeOf;
    var blocks' := Write(blocks, held[i / BLOCK_SIZE], i % BLOCK_SIZE, v);
    forall k: nat, x | k != i && InCell(held, blocks, k, x)
      ensures InCell(held, blocks', k, x)
    {
      if k / BLOCK_SIZE == i / BLOCK_SIZE && k % BLOCK_SIZE == i % BLOCK_SIZE {
        SameElement(i, k);
      }
    }
  }

  /** Data, element by element. */
  lemma DataIs(enqueued: seq<Value>, held: map<nat, BlockId>, blocks: map<BlockId, Block>, read: map<nat, Option<Value>>)
    ensures Data(enqueued, held, blocks, read) <==>
            (forall k: nat :: k < |enqueued| && k !in read ==> InCell(held, blocks, k, enqueued[k]))
  {
  }

  lemma CountsSame(held: map<nat, BlockId>, blocks: map<BlockId, Block>, blocks': map<BlockId, Block>, done: set<nat>)
    requires Counts(held, blocks, done) && blocks'.Keys == blocks.Keys
    requires forall id <- blocks :: blocks'[id].completed == blocks[id].completed
    ensures Counts(held, blocks', done)
  {
    hide Range;
  }

  lemma FillKeeps(s: State)
    requires Inv(s) && s.producer.Filling? && s.producer.written < |s.producer.vals|
    ensures Inv(DoFill(s))
  {
    hide Ring, Values, Owners, Accounted, Claims, Looks, BlocksOk, Released, Counts, Data, Reads, BlocksFor, EntryOf, Floor, Linked,
         InCell, BlockOf, Write;
    var Filling(vals, got, n) := s.producer;
    var s', i := DoFill(s), s.tail + n;
    BlockOfIsHeld(s, vals, got, i);
    WriteCell(s.held, s.blocks.Keys, [], s.consumers, s.blocks, i, Some(vals[n]));
    DataIs(s.enqueued, s.held, s.blocks, s.read);
    DataIs(s'.enqueued, s'.held, s'.blocks, s'.read);
    CountsSame(s.held, s.blocks, s'.blocks, s.done);
  }

  lemma PublishKeeps(s: State)
    requires Inv(s) && s.producer.Filling? && s.producer.written >= |s.producer.vals|
    ensures Inv(DoFill(s))
  {
    hide Ring, Values, Owners, Accounted, Claims, Looks, BlocksOk, Released, Counts, Data, Reads, BlocksFor, EntryOf, Floor, Linked,
         InCell, BlockOf, Write, Filled;
    PublishIndex(s);
    PublishBlocks(s);
    PublishContents(s);
  }

  lemma PublishIndex(s: State)
    requires Inv(s) && s.producer.Filling? && s.producer.written >= |s.producer.vals|
    ensures var s' := DoFill(s);
            && s'.tail == s.tail + |s.producer.vals| && s'.producer == Resting
            && BlocksFor(s'.tail) == BlocksFor(s.tail) + |s.producer.got|
            && IndexInv(s') && Room(s')
  {
    hide Ring, Values, Linked, Claims, Looks, Released, Counts, Data, Reads, OwnerInv, ConsumerInv, ContentInv, BlocksFor;
  }

  lemma PublishBlocks(s: State)
    requires OwnerInv(s) && ConsumerInv(s) && ProducerOk(s) && Room(s)
    requires s.producer.Filling? && s.producer.written >= |s.producer.vals|
    ensures OwnerInv(DoFill(s)) && ConsumerInv(DoFill(s)) && ProducerOk(DoFill(s))
  {
    hide Owners, Accounted, Claims, Looks, BlocksOk, AllDone, IsUnlinking, Filled;
    var s', got, vals := DoFill(s), s.producer.got, s.producer.vals;
    var first := BlocksFor(s.tail);
    forall b: nat | b < BlocksFor(s'.tail)
      ensures b in s'.held || AllDone(s'.done, b)
    {
      if b >= first {
        assert Find(s.held, first + (b - first)) == Some(got[b - first]);
      }
    }
    if s'.tail % BLOCK_SIZE != 0 {
      PublishTail(s.tail, |vals|);
      if got != [] {
        assert Find(s.held, first + (|got| - 1)) == Some(got[|got| - 1]);
      }
    }
  }

  lemma PublishTail(tail: nat, n: nat)
    requires n > 0 && (tail + n) % BLOCK_SIZE != 0
    ensures (tail + n) / BLOCK_SIZE + 1 == BlocksFor(tail + n)
    ensures BlocksFor(tail + n) == BlocksFor(tail) ==> tail % BLOCK_SIZE != 0 && (tail + n) / BLOCK_SIZE == tail / BLOCK_SIZE
  {
  }

  lemma ReadsMore(cs: seq<Consumer>, read: map<nat, Option<Value>>, head: nat, done: set<nat>, enqueued: seq<Value>, vals: seq<Value>)
    requires Reads(cs, read, head, done, enqueued)
    ensures Reads(cs, read, head, done, enqueued + vals)
  {
    hide ReadUpTo;
  }

  lemma PublishContents(s: State)
    requires ContentInv(s) && ProducerOk(s) && Room(s)
    requires s.producer.Filling? && s.producer.written >= |s.producer.vals|
    ensures ContentInv(DoFill(s))
  {
    hide Counts, Linked, InCell, Reads, Data;
    ReadsMore(s.consumers, s.read, s.head, s.done, s.enqueued, s.producer.vals);
    var s', vals := DoFill(s), s.producer.vals;
    DataIs(s.enqueued, s.held, s.blocks, s.read);
    DataIs(s'.enqueued, s'.held, s'.blocks, s'.read);
    forall k: nat | k < |s'.enqueued| && k !in s'.read
      ensures InCell(s'.held, s'.blocks, k, s'.enqueued[k])
    {
      if k >= s.tail {
        assert InCell(s.held, s.blocks, s.tail + (k - s.tail), vals[k - s.tail]);
      }
    }
  }

  // ---------------------------------------------------------------- a consumer claims and looks up

  lemma ClaimKeeps(s: State, c: nat, n: nat)
    requires Inv(s) && c < |s.consumers| && s.consumers[c].Idle? && n > 0 && s.head + n <= s.tail
    ensures Inv(SetConsumer(s, c, Claimed(s.head, s.head + n)).(head := s.head + n))
  {
    hide Ring, Values, Owners, Accounted, Claims, BlocksOk, Released, Counts, Data, BlocksFor, EntryOf, Floor, Linked, Filled;
    var to := Claimed(s.head, s.head + n);
    ClaimsTake(s.consumers, c, s.head, n, s.done);
    OwnersMove(s.held, s.blocks.Keys, HandOf(s.producer), s.consumers, c, to);
    BlocksMove(s.held, s.done, BlocksFor(s.tail), s.consumers, c, to);
    assert ReadUpTo(to, s.read);
  }

  /** A consumer moves on without touching an element or a block. */
  lemma MoveKeeps(s: State, c: nat, to: Consumer)
    requires Inv(s) && c < |s.consumers| && ConsumerShape(to)
    requires StartOf(to) == StartOf(s.consumers[c]) && EndOf(to) == EndOf(s.consumers[c]) && PosOf(to) == PosOf(s.consumers[c])
    requires FreeOf(to) == FreeOf(s.consumers[c]) && UnlinkOf(to) == UnlinkOf(s.consumers[c])
    requires LookOk(s.headers, s.keyed, to) && BlockOk(s.held, s.done, to)
    ensures Inv(SetConsumer(s, c, to))
  {
    hide Ring, Values, Owners, Accounted, Claims, BlocksOk, Released, Counts, Data, Reads, BlocksFor, EntryOf, Floor, Linked, Filled,
         StartOf, EndOf, PosOf, FreeOf, UnlinkOf, LookOk, BlockOk, ConsumerShape, HandOf, NextOf, SkipOf, BudgetOf;
    ClaimsMove(s.consumers, c, to, s.head, s.done);
    OwnersMove(s.held, s.blocks.Keys, HandOf(s.producer), s.consumers, c, to);
    BlocksMove(s.held, s.done, BlocksFor(s.tail), s.consumers, c, to);
    ReadsMove(s.consumers, s.read, s.head, s.done, s.enqueued, c, to);
  }

  /** An element in flight is below the head and not done, so its block is still in the ring. */
  lemma BlockIsLive(s: State, c: nat, k: nat)
    requires Inv(s) && c < |s.consumers| && InFlight(s.consumers[c], k)
    ensures k < s.head <= s.tail && k !in s.done
    ensures k / BLOCK_SIZE in s.held && s.held[k / BLOCK_SIZE] in s.blocks
    ensures Floor(s.headers, s.keyed, s.lo) <= k / BLOCK_SIZE < s.keyed
    ensures k / BLOCK_SIZE != SkipOf(s.producer, BlocksFor(s.tail))
  {
    hide Ring, Owners, Accounted, Looks, BlocksOk, Data, Reads, EntryOf, Floor, Linked, Filled, InFlight, HandOf, NextOf, SkipOf, BudgetOf,
         Range, Find, ValueOk;
    assert Uncounted(s.consumers[c], s.done, s.head);
    InRange(k, k / BLOCK_SIZE);
    assert k / BLOCK_SIZE in s.held || AllDone(s.done, k / BLOCK_SIZE);
  }

  lemma NextAtLeast(s: State)
    requires IndexInv(s) && ProducerOk(s)
    ensures BlocksFor(s.tail) <= NextOf(s.producer, BlocksFor(s.tail)) <= s.keyed
  {
    hide Keys, AllKnow, TailsOk, Values, BlocksFor, Linked, EntryOf, Filled, Floor;
  }

  lemma BlocksForMonotone(a: nat, b: nat)
    requires a <= b
    ensures BlocksFor(a) <= BlocksFor(b)
    ensures a > 0 ==> BlocksFor(a) > (a - 1) / BLOCK_SIZE
  {
  }

  /** A header loaded after a claim knows all blocks of the claim. */
  lemma HeaderKeeps(s: State, c: nat)
    requires Inv(s) && Sized(s) && c < |s.consumers| && s.consumers[c].Claimed?
    ensures Inv(SetConsumer(s, c, HasHeader(s.consumers[c].pos, s.consumers[c].end, |s.headers| - 1)))
  {
    hide IndexInv, OwnerInv, ContentInv, ProducerOk, BlocksFor, Looks, BlocksOk, Released, Disjoint, BudgetOf;
    var Claimed(i, end) := s.consumers[c];
    assert ConsumerShape(s.consumers[c]);
    BlockIsLive(s, c, end - 1);
    BlocksForMonotone(end, s.tail);
    NextAtLeast(s);
    MoveKeeps(s, c, HasHeader(i, end, |s.headers| - 1));
  }

  lemma TailKeeps(s: State, c: nat)
    requires Inv(s) && Sized(s) && c < |s.consumers| && s.consumers[c].HasHeader? && s.consumers[c].header < |s.headers|
    ensures var HasHeader(i, end, h) := s.consumers[c];
            Inv(SetConsumer(s, c, HasTail(i, end, h, s.headers[h].tail)))
  {
    hide OwnerInv, ContentInv, ProducerOk, BlocksFor, BlocksOk, Released, Disjoint, BudgetOf, Values, Keys, AllKnow, NextOf, Slot, Shape;
    var HasHeader(i, end, h) := s.consumers[c];
    assert ConsumerShape(s.consumers[c]) && LookOk(s.headers, s.keyed, s.consumers[c]);
    BlockIsLive(s, c, end - 1);
    BlocksForMonotone(end, s.tail);
    NextAtLeast(s);
    var b := Top(s.headers, s.keyed, h) - 1;
    if h == |s.headers| - 1 {
      b := NextOf(s.producer, BlocksFor(s.tail)) - 1;
    }
    assert TailAt(s.headers, s.keyed, h, end, s.headers[h].tail, b);
    MoveKeeps(s, c, HasTail(i, end, h, s.headers[h].tail));
  }

  lemma LookupKeeps(s: State, c: nat)
    requires Inv(s) && c < |s.consumers| && s.consumers[c].HasTail? && CanConsume(s, c)
    ensures Inv(DoLookup(s, c))
  {
    hide OwnerInv, ContentInv, ProducerOk, BlocksFor, BlocksOk, Released, Disjoint, BudgetOf, Values, Ring, NextOf, Slot, Room, LookupSlot;
    var HasTail(i, end, h, t) := s.consumers[c];
    assert ConsumerShape(s.consumers[c]) && LookOk(s.headers, s.keyed, s.consumers[c]);
    BlockIsLive(s, c, i);
    LookupLands(s.headers, s.keys, s.keyed, s.lo, NextOf(s.producer, BlocksFor(s.tail)), s.consumers[c]);
    MoveKeeps(s, c, AtSlot(i, end, h, Slot(s.headers[h], i / BLOCK_SIZE)));
  }

  /** The slot a consumer has found holds the entry of its element's block: the entry is keyed by that
      block's base, and its value is the block. */
  lemma SlotIsRight(s: State, c: nat)
    requires Inv(s) && c < |s.consumers| && s.consumers[c].AtSlot? && CanConsume(s, c)
    ensures var AtSlot(i, end, h, slot) := s.consumers[c];
            && Points(s, h, slot)
            && s.keys[s.headers[h].index[slot]] == Base(i / BLOCK_SIZE)
            && i / BLOCK_SIZE in s.held
            && s.held[i / BLOCK_SIZE] in s.blocks
            && s.values[s.headers[h].index[slot]] == Some(s.held[i / BLOCK_SIZE])
  {
    hide OwnerInv, ContentInv, ProducerOk, BlocksOk, Released, Disjoint, BudgetOf, Ring, NextOf, Slot, Room, EntryOf, Base;
    var AtSlot(i, end, h, slot) := s.consumers[c];
    assert ConsumerShape(s.consumers[c]) && LookOk(s.headers, s.keyed, s.consumers[c]);
    BlockIsLive(s, c, i);
    BlocksForMonotone(i + 1, end);
    EntryLands(s.headers, s.keys, s.keyed, s.lo, NextOf(s.producer, BlocksFor(s.tail)), h, end, i / BLOCK_SIZE);
    KeyLands(s.headers, s.keys, s.keyed, s.lo, NextOf(s.producer, BlocksFor(s.tail)), i / BLOCK_SIZE);
    assert ValueOk(Last(s.headers), s.values, s.held, i / BLOCK_SIZE);
  }

  lemma KeyLands(headers: seq<Header>, keys: seq<Word>, keyed: nat, lo: int, next: nat, b: nat)
    requires Ring(headers, keys, keyed, lo, next) && Floor(headers, keyed, lo) <= b < keyed
    ensures EntryOf(Last(headers), b) < |keys| && keys[EntryOf(Last(headers), b)] == Base(b)
  {
    hide Base, IsCapacity;
    KeyInPlace(headers, keys, keyed, lo, next, |headers| - 1, b);
  }

  lemma LoadBlockKeeps(s: State, c: nat)
    requires Inv(s) && c < |s.consumers| && s.consumers[c].AtSlot? && CanConsume(s, c)
    ensures Inv(DoLoadBlock(s, c))
  {
    hide OwnerInv, ContentInv, ProducerOk, IndexInv, BlocksOk, Released, Disjoint, BudgetOf, Room, Slot, Sees;
    var AtSlot(i, end, h, slot) := s.consumers[c];
    assert ConsumerShape(s.consumers[c]) && LookOk(s.headers, s.keyed, s.consumers[c]);
    SlotIsRight(s, c);
    MoveKeeps(s, c, Reading(i, end, h, slot, s.held[i / BLOCK_SIZE], i));
  }

  // ---------------------------------------------------------------- a consumer reads

  lemma StopSameBlock(start: nat, i: nat, end: nat)
    requires start <= i < StopOf(start, end)
    ensures i / BLOCK_SIZE == start / BLOCK_SIZE && i < end
  {
  }

  /** The element that a consumer reads is the one that was enqueued under that number, and nobody has read
      it before. */
  lemma ReadIsRight(s: State, c: nat)
    requires Inv(s) && c < |s.consumers| && s.consumers[c].Reading?
    requires s.consumers[c].pos < StopOf(s.consumers[c].start, s.consumers[c].end)
    ensures var Reading(i, end, h, slot, b, start) := s.consumers[c];
            && i < |s.enqueued| && i !in s.read
            && i / BLOCK_SIZE in s.held && s.held[i / BLOCK_SIZE] == b
            && CellOf(s, b, i % BLOCK_SIZE) == Some(s.enqueued[i])
  {
    hide OwnerInv, IndexInv, ProducerOk, Claims, Looks, Released, Counts, StopOf;
    var Reading(i, end, h, slot, b, start) := s.consumers[c];
    ReadShape(s, c);
    StopSameBlock(start, i, end);
    assert InFlight(s.consumers[c], i);
    BlockIsLive(s, c, i);
    assert BlockOk(s.held, s.done, s.consumers[c]);
    assert ReadUpTo(s.consumers[c], s.read);
    DataIs(s.enqueued, s.held, s.blocks, s.read);
    assert InCell(s.held, s.blocks, i, s.enqueued[i]);
  }

  lemma ReadElementKeeps(s: State, c: nat)
    requires Inv(s) && c < |s.consumers| && s.consumers[c].Reading? && CanConsume(s, c)
    requires s.consumers[c].pos < StopOf(s.consumers[c].start, s.consumers[c].end)
    ensures Inv(DoRead(s, c))
  {
    hide Ring, Values, Owners, Accounted, Claims, Looks, BlocksOk, Released, Counts, Data, Reads, BlocksFor, EntryOf, Floor, Linked,
         Write, Filled, CellOf, StopOf;
    var Reading(i, end, h, slot, b, start) := s.consumers[c];
    var to := Reading(i + 1, end, h, slot, b, start);
    var s' := DoRead(s, c);
    ReadIsRight(s, c);
    BlockIsLiveReading(s, c);
    ReadFacts(s, c);
    ReadShape(s, c);
    ClaimsMove(s.consumers, c, to, s.head, s.done);
    OwnersMove(s.held, s.blocks.Keys, HandOf(s.producer), s.consumers, c, to);
    BlocksMove(s.held, s.done, BlocksFor(s.tail), s.consumers, c, to);
    LooksMove(s.headers, s.keyed, s.consumers, c, to);
    WriteCell(s.held, s.blocks.Keys, HandOf(s.producer), s.consumers, s.blocks, i, None);
    CountsSame(s.held, s.blocks, s'.blocks, s.done);
    ReadContents(s, s', i);
    ReadUpdates(s, c, to, s'.read);
    ReadProducer(s, s', i);
  }

  lemma BlockIsLiveReading(s: State, c: nat)
    requires Inv(s) && c < |s.consumers| && s.consumers[c].Reading?
    requires s.consumers[c].pos < StopOf(s.consumers[c].start, s.consumers[c].end)
    ensures s.consumers[c].pos < s.head && s.consumers[c].pos < s.consumers[c].end
  {
    hide OwnerInv, IndexInv, ProducerOk, ConsumerInv, ContentInv, StopOf;
    var Reading(i, end, h, slot, b, start) := s.consumers[c];
    ReadShape(s, c);
    StopSameBlock(start, i, end);
    BlockIsLive(s, c, i);
  }

  lemma ReadShape(s: State, c: nat)
    requires ConsumerInv(s) && c < |s.consumers| && s.consumers[c].Reading?
    ensures ConsumerShape(s.consumers[c]) && LookOk(s.headers, s.keyed, s.consumers[c]) && BlockOk(s.held, s.done, s.consumers[c])
    ensures s.consumers[c].start < s.consumers[c].end && s.consumers[c].start <= s.consumers[c].pos
  {
  }

  lemma ReadFacts(s: State, c: nat)
    requires ConsumerInv(s) && c < |s.consumers| && s.consumers[c].Reading?
    requires s.consumers[c].pos < StopOf(s.consumers[c].start, s.consumers[c].end)
    ensures var Reading(i, end, h, slot, b, start) := s.consumers[c];
            var to := Reading(i + 1, end, h, slot, b, start);
            ConsumerShape(to) && LookOk(s.headers, s.keyed, to) && BlockOk(s.held, s.done, to)
  {
    ReadShape(s, c);
  }

  lemma LooksMove(headers: seq<Header>, keyed: nat, cs: seq<Consumer>, c: nat, to: Consumer)
    requires Looks(headers, keyed, cs) && c < |cs| && LookOk(headers, keyed, to)
    ensures Looks(headers, keyed, cs[c := to])
  {
    hide LookOk;
  }

  lemma ReadContents(s: State, s': State, i: nat)
    requires Data(s.enqueued, s.held, s.blocks, s.read) && s'.enqueued == s.enqueued && s'.held == s.held
    requires s'.read.Keys == s.read.Keys + {i}
    requires forall k: nat, x {:trigger InCell(s.held, s'.blocks, k, x)} :: k != i && InCell(s.held, s.blocks, k, x) ==> InCell(s.held, s'.blocks, k, x)
    ensures Data(s'.enqueued, s'.held, s'.blocks, s'.read)
  {
    hide InCell, Data;
    DataIs(s.enqueued, s.held, s.blocks, s.read);
    DataIs(s'.enqueued, s'.held, s'.blocks, s'.read);
    forall k: nat | k < |s'.enqueued| && k !in s'.read
      ensures InCell(s'.held, s'.blocks, k, s'.enqueued[k])
    {
      assert k !in s.read;
    }
  }

  lemma ReadUpdates(s: State, c: nat, to: Consumer, read: map<nat, Option<Value>>)
    requires Claims(s.consumers, s.head, s.done) && Reads(s.consumers, s.read, s.head, s.done, s.enqueued)
    requires c < |s.consumers| && s.consumers[c].Reading?
    requires var Reading(i, end, h, slot, b, start) := s.consumers[c]; to == Reading(i + 1, end, h, slot, b, start)
    requires to.start < to.pos <= to.end && s.consumers[c].pos < s.head && s.consumers[c].pos < |s.enqueued|
    requires read == s.read[s.consumers[c].pos := Some(s.enqueued[s.consumers[c].pos])]
    ensures Reads(s.consumers[c := to], read, s.head, s.done, s.enqueued)
  {
    var i, cs' := s.consumers[c].pos, s.consumers[c := to];
    assert InFlight(s.consumers[c], i);
    forall j | 0 <= j < |cs'|
      ensures ReadUpTo(cs'[j], read)
    {
      assert ReadUpTo(s.consumers[j], s.read);
      DisjointPair(s.consumers, c, j, i, s.done, s.head);
      forall k: nat | InFlight(cs'[j], k)
        ensures k in read <==> k < PosOf(cs'[j])
      {
        assert InFlight(s.consumers[j], k);
      }
    }
  }

  /** Reading below the tail leaves what the producer has written alone. */
  lemma ReadProducer(s: State, s': State, i: nat)
    requires ProducerOk(s) && i < s.tail
    requires s' == s.(consumers := s'.consumers, read := s'.read, blocks := s'.blocks)
    requires s'.blocks.Keys == s.blocks.Keys && forall id <- s.blocks :: s'.blocks[id].completed == s.blocks[id].completed
    requires forall k: nat, x {:trigger InCell(s.held, s'.blocks, k, x)} :: k != i && InCell(s.held, s.blocks, k, x) ==> InCell(s.held, s'.blocks, k, x)
    ensures ProducerOk(s')
  {
    hide InCell, Linked, BlocksFor, EntryOf, Floor, Find;
  }

  // ---------------------------------------------------------------- a consumer counts what it has read

  /** What a consumer at the end of its part of a block knows. */
  lemma PartEnds(s: State, c: nat)
    requires Inv(s) && c < |s.consumers| && s.consumers[c].Reading?
    requires s.consumers[c].pos >= StopOf(s.consumers[c].start, s.consumers[c].end)
    ensures var Reading(i, end, h, slot, b, start) := s.consumers[c];
            && start < i == StopOf(start, end) <= end && i <= BLOCK_SIZE * (start / BLOCK_SIZE) + BLOCK_SIZE
            && (i < end ==> i == BLOCK_SIZE * (start / BLOCK_SIZE) + BLOCK_SIZE)
            && BlockBefore(i) == start / BLOCK_SIZE
            && Find(s.held, start / BLOCK_SIZE) == Some(b) && b in s.blocks
            && s.blocks[b].completed == |s.done * Range(start / BLOCK_SIZE)|
            && start !in s.done && start < s.head
            && (forall k: nat :: Between(start, k, i) ==> k !in s.done && k in s.read)
  {
    hide IndexInv, ProducerOk, Claims, Looks, Released, Owners, Accounted, BlocksOk, Data, Reads, Range, StopOf, InFlight, Sized32;
    var Reading(i, end, h, slot, b, start) := s.consumers[c];
    ReadShape(s, c);
    PartBounds(s.consumers[c]);
    forall k: nat | Between(start, k, i)
      ensures k !in s.done && k in s.read && k < s.head
    {
      PartIsRead(s, c, k);
      BlockIsLive(s, c, k);
    }
    assert Between(start, start, i);
    CountsOf(s.held, s.blocks, s.done, start / BLOCK_SIZE, b);
  }

  lemma CountsOf(held: map<nat, BlockId>, blocks: map<BlockId, Block>, done: set<nat>, b: nat, id: BlockId)
    requires Counts(held, blocks, done) && Find(held, b) == Some(id)
    ensures b in held && held[b] == id && id in blocks && blocks[id].completed == |done * Range(b)|
  {
    hide Range;
  }

  lemma PartBounds(c: Consumer)
    requires c.Reading? && ConsumerShape(c) && c.pos >= StopOf(c.start, c.end)
    ensures c.start < c.pos == StopOf(c.start, c.end) <= c.end
    ensures c.pos <= BLOCK_SIZE * (c.start / BLOCK_SIZE) + BLOCK_SIZE
    ensures c.pos < c.end ==> c.pos == BLOCK_SIZE * (c.start / BLOCK_SIZE) + BLOCK_SIZE
    ensures BlockBefore(c.pos) == c.start / BLOCK_SIZE
  {
  }

  lemma PartIsRead(s: State, c: nat, k: nat)
    requires ContentInv(s) && c < |s.consumers| && s.consumers[c].Reading? && s.consumers[c].pos <= s.consumers[c].end
    requires Between(s.consumers[c].start, k, s.consumers[c].pos)
    ensures InFlight(s.consumers[c], k) && k in s.read
  {
    hide Counts, Data;
    assert ReadUpTo(s.consumers[c], s.read);
    assert InFlight(s.consumers[c], k);
  }

  /** The count never passes the block size, and reaches it when all the block's elements are done. */
  lemma CountIsExact(s: State, c: nat)
    requires Inv(s) && c < |s.consumers| && s.consumers[c].Reading?
    requires s.consumers[c].pos >= StopOf(s.consumers[c].start, s.consumers[c].end)
    ensures var Reading(i, end, h, slot, b, start) := s.consumers[c];
            && b in s.blocks && start < i
            && s.blocks[b].completed + (i - start) <= BLOCK_SIZE
            && s.blocks[b].completed + (i - start) == |(s.done + Span(start, i)) * Range(start / BLOCK_SIZE)|
            && (s.blocks[b].completed + (i - start) == BLOCK_SIZE <==> AllDone(s.done + Span(start, i), start / BLOCK_SIZE))
  {
    hide Inv, Range, AllDone, StopOf;
    var Reading(i, end, h, slot, b, start) := s.consumers[c];
    PartEnds(s, c);
    CountPart(s.done, start, i, start / BLOCK_SIZE, start / BLOCK_SIZE);
    FullIffDone(s.done + Span(start, i), start / BLOCK_SIZE);
  }

  /** Where a consumer goes after counting. */
  lemma AfterCount(s: State, c: nat, full: bool)
    requires Inv(s) && c < |s.consumers| && s.consumers[c].Reading? && CanConsume(s, c)
    requires s.consumers[c].pos >= StopOf(s.consumers[c].start, s.consumers[c].end)
    requires full ==> AllDone(s.done + Span(s.consumers[c].start, s.consumers[c].pos), s.consumers[c].start / BLOCK_SIZE)
    ensures var Reading(i, end, h, slot, b, start) := s.consumers[c];
            var to := if full then Unlinking(i, end, h, slot, b) else NextPart(s, i, end, h, slot);
            && ConsumerShape(to) && LookOk(s.headers, s.keyed, to) && FreeOf(to) == None
            && BlockOk(s.held, s.done + Span(start, i), to)
            && (forall k: nat {:trigger InFlight(to, k)} :: InFlight(to, k) <==> i <= k < end)
            && (InFlight(to, i) ==> PosOf(to) == i)
            && UnlinkOf(to) == (if full then Some(start / BLOCK_SIZE) else None)
  {
    hide IndexInv, OwnerInv, ContentInv, ProducerOk, Claims, Looks, Released, BlocksOk, AllDone, Slot;
    var Reading(i, end, h, slot, b, start) := s.consumers[c];
    ReadShape(s, c);
    PartEnds(s, c);
    if i < end {
      SlotStep(s.headers[h], start / BLOCK_SIZE, 1);
      assert i / BLOCK_SIZE == start / BLOCK_SIZE + 1;
    }
  }

  /** Blocks and their unlinkers when a part of block b has been counted. */
  lemma CountBlocks(held: map<nat, BlockId>, done: set<nat>, blocks: nat, cs: seq<Consumer>, c: nat, to: Consumer,
                    start: nat, i: nat, b: nat)
    requires BlocksOk(held, done, cs) && Released(held, done, blocks, cs) && c < |cs| && cs[c].Reading?
    requires start / BLOCK_SIZE == b && start < i <= BLOCK_SIZE * b + BLOCK_SIZE && b in held
    requires forall k: nat :: Between(start, k, i) ==> k !in done
    requires BlockOk(held, done + Span(start, i), to)
    requires UnlinkOf(to) == if AllDone(done + Span(start, i), b) then Some(b) else None
    ensures BlocksOk(held, done + Span(start, i), cs[c := to]) && Released(held, done + Span(start, i), blocks, cs[c := to])
  {
    hide Range;
    var done', cs' := done + Span(start, i), cs[c := to];
    assert Between(start, start, i);
    InRange(start, b);
    assert !AllDone(done, b);
    forall j | 0 <= j < |cs|
      ensures BlockOk(held, done', cs[j]) && UnlinkOf(cs[j]) != Some(b)
    {
      assert BlockOk(held, done, cs[j]);
    }
    forall x | x in held && AllDone(done', x)
      ensures IsUnlinking(cs', x)
    {
      CountPart(done, start, i, b, x);
      UnlinkingMoves(cs, c, to, x);
    }
  }

  lemma CountCounts(s: State, b: nat, start: nat, i: nat, ids: set<BlockId>, hand: seq<BlockId>)
    requires Counts(s.held, s.blocks, s.done) && Owners(s.held, ids, hand, s.consumers) && b in s.held
    requires start / BLOCK_SIZE == b && start < i <= BLOCK_SIZE * b + BLOCK_SIZE
    requires forall k: nat :: Between(start, k, i) ==> k !in s.done
    ensures Counts(s.held, Counted(s.blocks, s.held[b], i - start), s.done + Span(start, i))
  {
    hide Range, FreeOf;
    forall x | x in s.held
      ensures s.held[x] in s.blocks
      ensures Counted(s.blocks, s.held[b], i - start)[s.held[x]].completed == |(s.done + Span(start, i)) * Range(x)|
    {
      CountPart(s.done, start, i, b, x);
    }
  }

  lemma CountReads(s: State, c: nat, to: Consumer, start: nat, i: nat)
    requires Reads(s.consumers, s.read, s.head, s.done, s.enqueued) && c < |s.consumers| && s.consumers[c].Reading?
    requires s.consumers[c].pos == i && s.consumers[c].start == start
    requires forall k: nat :: Between(start, k, i) ==> k in s.read
    requires forall k: nat {:trigger InFlight(to, k)} :: InFlight(to, k) <==> i <= k < s.consumers[c].end
    requires InFlight(to, i) ==> PosOf(to) == i
    requires start < i
    ensures Reads(s.consumers[c := to], s.read, s.head, s.done + Span(start, i), s.enqueued)
  {
    assert ReadUpTo(s.consumers[c], s.read);
    forall k: nat | InFlight(to, k)
      ensures k in s.read <==> k < PosOf(to)
    {
      assert InFlight(s.consumers[c], k);
      assert InFlight(to, i);
    }
  }

  lemma CountKeeps(s: State, c: nat)
    requires Inv(s) && c < |s.consumers| && s.consumers[c].Reading? && CanConsume(s, c)
    requires s.consumers[c].pos >= StopOf(s.consumers[c].start, s.consumers[c].end)
    ensures Inv(DoRead(s, c))
  {
    hide Ring, Values, Owners, Accounted, Claims, Looks, BlocksOk, Released, Counts, Data, Reads, BlocksFor, EntryOf, Floor, Linked,
         Write, Filled, CellOf, StopOf, InFlight, AllDone, BlockOk, LookOk, ConsumerShape, NextPart, Range;
    var Reading(i, end, h, slot, b, start) := s.consumers[c];
    var s' := DoRead(s, c);
    var to := s'.consumers[c];
    PartEnds(s, c);
    CountIsExact(s, c);
    AfterCount(s, c, s.blocks[b].completed + (i - start) == BLOCK_SIZE);
    ClaimsCount(s.consumers, c, to, s.head, s.done, i);
    LooksMove(s.headers, s.keyed, s.consumers, c, to);
    OwnersMove(s.held, s.blocks.Keys, HandOf(s.producer), s.consumers, c, to);
    assert s'.blocks.Keys == s.blocks.Keys;
    CountBlocks(s.held, s.done, BlocksFor(s.tail), s.consumers, c, to, start, i, start / BLOCK_SIZE);
    CountCounts(s, start / BLOCK_SIZE, start, i, s.blocks.Keys, HandOf(s.producer));
    CountReads(s, c, to, start, i);
    CountData(s, s', b, i - start);
  }

  lemma CountData(s: State, s': State, b: BlockId, n: nat)
    requires Data(s.enqueued, s.held, s.blocks, s.read) && Sized32(s.blocks) && ProducerOk(s)
    requires Owners(s.held, s.blocks.Keys, HandOf(s.producer), s.consumers) && IsHeld(s.held, b)
    requires s' == s.(consumers := s'.consumers, done := s'.done, blocks := Counted(s.blocks, b, n))
    ensures Data(s'.enqueued, s'.held, s'.blocks, s'.read) && Sized32(s'.blocks) && ProducerOk(s')
  {
    hide Linked, BlocksFor, EntryOf, Floor, Find, Data, FreeOf;
    DataIs(s.enqueued, s.held, s.blocks, s.read);
    DataIs(s'.enqueued, s'.held, s'.blocks, s'.read);
    forall k: nat, x
      ensures InCell(s.held, s.blocks, k, x) ==> InCell(s'.held, s'.blocks, k, x)
    {
    }
    if s.producer.Linking? {
      assert HandOf(s.producer)[0] == s.producer.block;
    }
  }

  // ---------------------------------------------------------------- a consumer unlinks and frees a block

  /** A consumer that is about to unlink a block finds its entry, and every element of the block is done. */
  lemma UnlinkLands(s: State, c: nat)
    requires Inv(s) && c < |s.consumers| && s.consumers[c].Unlinking? && CanConsume(s, c)
    ensures var Unlinking(i, end, h, slot, b) := s.consumers[c];
            var n := BlockBefore(i);
            && n in s.held && s.held[n] == b && AllDone(s.done, n) && BLOCK_SIZE * n < s.head && n < BlocksFor(s.tail)
            && Floor(s.headers, s.keyed, s.lo) <= n < s.keyed && n != SkipOf(s.producer, BlocksFor(s.tail))
            && Points(s, h, slot) && s.headers[h].index[slot] == EntryOf(Last(s.headers), n)
            && (i - 1) / BLOCK_SIZE == n && n < BlocksFor(end)
  {
    hide OwnerInv, ContentInv, ProducerOk, Ring, Looks, Released, Disjoint, BudgetOf, Slot, EntryOf, Floor, AllDone, BlocksOk;
    var Unlinking(i, end, h, slot, b) := s.consumers[c];
    UnlinkShape(s, c);
    ConsumersBelow(s.consumers, c, s.head, s.done);
    BlocksForMonotone(i, end);
    EntryLands(s.headers, s.keys, s.keyed, s.lo, NextOf(s.producer, BlocksFor(s.tail)), h, end, BlockBefore(i));
  }

  lemma UnlinkShape(s: State, c: nat)
    requires ConsumerInv(s) && c < |s.consumers| && s.consumers[c].Unlinking?
    ensures var Unlinking(i, end, h, slot, b) := s.consumers[c];
            && AfterPart(i, end) && Sees(s.headers, s.keyed, h, end) && slot == Slot(s.headers[h], BlockBefore(i))
            && Find(s.held, BlockBefore(i)) == Some(b) && AllDone(s.done, BlockBefore(i))
  {
    assert ConsumerShape(s.consumers[c]) && LookOk(s.headers, s.keyed, s.consumers[c]) && BlockOk(s.held, s.done, s.consumers[c]);
  }

  lemma UnlinkBlocks(held: map<nat, BlockId>, done: set<nat>, blocks: nat, cs: seq<Consumer>, c: nat, to: Consumer, n: nat, head: nat)
    requires BlocksOk(held, done, cs) && Released(held, done, blocks, cs) && Claims(cs, head, done) && c < |cs|
    requires UnlinkOf(cs[c]) == Some(n) && to.Freeing? && AllDone(done, n)
    ensures BlocksOk(held - {n}, done, cs[c := to]) && Released(held - {n}, done, blocks, cs[c := to])
  {
    hide Range;
    var cs', held' := cs[c := to], held - {n};
    forall j | 0 <= j < |cs'|
      ensures BlockOk(held', done, cs'[j])
    {
      if j != c {
        assert BlockOk(held, done, cs[j]) && UnlinkOf(cs[j]) != Some(n);
        if cs[j].Reading? {
          assert ConsumerShape(cs[j]);
          assert InFlight(cs[j], cs[j].start);
          DisjointPair(cs, j, j, cs[j].start, done, head);
          InRange(cs[j].start, cs[j].start / BLOCK_SIZE);
        }
      }
    }
    forall x | x in held' && AllDone(done, x)
      ensures IsUnlinking(cs', x)
    {
      UnlinkingMoves(cs, c, to, x);
    }
  }

  /** No element that matters any more is in a block that is all done. */
  lemma UnlinkContents(s: State, n: nat)
    requires ContentInv(s) && ProducerOk(s) && Claims(s.consumers, s.head, s.done) && Room(s) && AllDone(s.done, n)
    requires n < BlocksFor(s.tail) && TailBlockOk(s.held, s.tail, s.tailBlock)
    ensures Counts(s.held - {n}, s.blocks, s.done) && Data(s.enqueued, s.held - {n}, s.blocks, s.read)
    ensures ProducerOk(s.(held := s.held - {n})) && TailBlockOk(s.held - {n}, s.tail, s.tailBlock)
  {
    hide Range, BlocksFor, EntryOf, Floor, ReadUpTo, Shapes, BudgetOf, ProducerOk, Counts, Data, AllDone, InCell;
    DoneBelow(s);
    forall k: nat | k !in s.done
      ensures k / BLOCK_SIZE != n
    {
      NotDone(s.done, k, n);
    }
    if s.tail % BLOCK_SIZE != 0 {
      assert s.tail !in s.done;
    }
    UnlinkProducer(s, n);
    CountsDrop(s.held, s.blocks, s.done, n);
    DataIs(s.enqueued, s.held, s.blocks, s.read);
    DataIs(s.enqueued, s.held - {n}, s.blocks, s.read);
    forall k: nat | k < |s.enqueued| && k !in s.read
      ensures InCell(s.held - {n}, s.blocks, k, s.enqueued[k])
    {
      assert k !in s.done;
      CellStays(s.held, s.blocks, k, s.enqueued[k], n);
    }
  }

  lemma NotDone(done: set<nat>, k: nat, n: nat)
    requires AllDone(done, n) && k !in done
    ensures k / BLOCK_SIZE != n
  {
    InRange(k, n);
  }

  lemma CountsDrop(held: map<nat, BlockId>, blocks: map<BlockId, Block>, done: set<nat>, n: nat)
    requires Counts(held, blocks, done)
    ensures Counts(held - {n}, blocks, done)
  {
    hide Range;
  }

  lemma CellStays(held: map<nat, BlockId>, blocks: map<BlockId, Block>, k: nat, v: Value, n: nat)
    requires InCell(held, blocks, k, v) && k / BLOCK_SIZE != n
    ensures InCell(held - {n}, blocks, k, v)
  {
  }

  lemma UnlinkProducer(s: State, n: nat)
    requires ProducerOk(s) && n < BlocksFor(s.tail) && s.head <= s.tail && forall k <- s.done :: k < s.head
    requires forall k: nat :: k !in s.done ==> k / BLOCK_SIZE != n
    ensures ProducerOk(s.(held := s.held - {n}))
  {
    hide BlocksFor, EntryOf, Floor, Filled;
    if s.producer.Filling? {
      FilledKeeps(s.held, s.blocks, s.tail, s.producer.vals, s.producer.written, s.done, n);
    }
  }

  lemma FilledKeeps(held: map<nat, BlockId>, blocks: map<BlockId, Block>, from: nat, vals: seq<Value>, w: nat, done: set<nat>, n: nat)
    requires Filled(held, blocks, from, vals, w) && (forall k <- done :: k < from)
    requires forall k: nat :: k !in done ==> k / BLOCK_SIZE != n
    ensures Filled(held - {n}, blocks, from, vals, w)
  {
    forall j | 0 <= j < w
      ensures InCell(held - {n}, blocks, from + j, vals[j])
    {
      assert InCell(held, blocks, from + j, vals[j]);
      assert from + j !in done;
    }
  }

  lemma UnlinkKeeps(s: State, c: nat)
    requires Inv(s) && c < |s.consumers| && s.consumers[c].Unlinking? && CanConsume(s, c)
    ensures Inv(DoUnlink(s, c))
  {
    hide Ring, Values, Owners, Accounted, Claims, Looks, BlocksOk, Released, Counts, Data, Reads, BlocksFor, EntryOf, Floor, Linked,
         Filled, AllDone, HandOf, NextOf, SkipOf, BudgetOf, TailBlockOk, ProducerOk;
    var Unlinking(i, end, h, slot, b) := s.consumers[c];
    var n, to, s' := BlockBefore(i), Freeing(i, end, h, slot, b), DoUnlink(s, c);
    UnlinkLands(s, c);
    UnlinkShape(s, c);
    ValuesStore(s.headers, s.keys, s.keyed, s.lo, NextOf(s.producer, BlocksFor(s.tail)), s.values, s.held,
                SkipOf(s.producer, BlocksFor(s.tail)), n, s'.held, SkipOf(s.producer, BlocksFor(s.tail)));
    ClaimsMove(s.consumers, c, to, s.head, s.done);
    LooksMove(s.headers, s.keyed, s.consumers, c, to);
    OwnersUnlink(s.held, s.blocks.Keys, HandOf(s.producer), s.consumers, c, to, n);
    UnlinkBlocks(s.held, s.done, BlocksFor(s.tail), s.consumers, c, to, n, s.head);
    UnlinkContents(s, n);
    ReadsMove(s.consumers, s.read, s.head, s.done, s.enqueued, c, to);
    UnlinkProducerFrame(s, s', n);
  }

  lemma UnlinkProducerFrame(s: State, s': State, n: nat)
    requires ProducerOk(s.(held := s.held - {n}))
    requires s' == s.(held := s.held - {n}, values := s'.values, consumers := s'.consumers)
    ensures ProducerOk(s')
  {
    hide Linked, BlocksFor, EntryOf, Floor, Filled, Find;
  }

  lemma FreeKeeps(s: State, c: nat)
    requires Inv(s) && c < |s.consumers| && s.consumers[c].Freeing? && CanConsume(s, c)
    ensures Inv(DoFree(s, c))
  {
    hide Ring, Values, Owners, Accounted, Claims, Looks, BlocksOk, Released, Counts, Data, Reads, BlocksFor, EntryOf, Floor, Linked,
         Filled, AllDone, HandOf, NextOf, SkipOf, BudgetOf, TailBlockOk, ProducerOk, NextPart;
    var Freeing(i, end, h, slot, b) := s.consumers[c];
    var to, s' := NextPart(s, i, end, h, slot), DoFree(s, c);
    FreeMoves(s, c);
    FreeIsOut(s, c);
    ClaimsCount(s.consumers, c, to, s.head, s.done, i);
    assert s.done + Span(i, i) == s.done;
    LooksMove(s.headers, s.keyed, s.consumers, c, to);
    OwnersFree(s.held, s.blocks.Keys, HandOf(s.producer), s.consumers, c, to, b);
    assert s'.blocks.Keys == s.blocks.Keys - {b};
    BlocksMove(s.held, s.done, BlocksFor(s.tail), s.consumers, c, to);
    DropContents(s, b);
    FreeReads(s, c, to);
    FreeProducer(s, s', b);
  }

  lemma FreeMoves(s: State, c: nat)
    requires Inv(s) && c < |s.consumers| && s.consumers[c].Freeing? && CanConsume(s, c)
    ensures var Freeing(i, end, h, slot, b) := s.consumers[c];
            var to := NextPart(s, i, end, h, slot);
            && i <= end
            && ConsumerShape(to) && LookOk(s.headers, s.keyed, to) && FreeOf(to) == None && UnlinkOf(to) == None
            && BlockOk(s.held, s.done, to)
            && (forall k: nat {:trigger InFlight(to, k)} :: InFlight(to, k) <==> i <= k < end)
            && (to.Idle? || PosOf(to) == i)
  {
    hide IndexInv, OwnerInv, ContentInv, ProducerOk, Claims, Looks, Released, BlocksOk, Slot;
    var Freeing(i, end, h, slot, b) := s.consumers[c];
    FreeShape(s, c);
    if i < end {
      SlotStep(s.headers[h], BlockBefore(i), 1);
    }
  }

  lemma FreeShape(s: State, c: nat)
    requires ConsumerInv(s) && c < |s.consumers| && s.consumers[c].Freeing?
    ensures var Freeing(i, end, h, slot, b) := s.consumers[c];
            AfterPart(i, end) && Sees(s.headers, s.keyed, h, end) && slot == Slot(s.headers[h], BlockBefore(i))
  {
    assert ConsumerShape(s.consumers[c]) && LookOk(s.headers, s.keyed, s.consumers[c]);
  }

  /** A block about to be freed is neither in the ring nor in the producer's hand. */
  lemma FreeIsOut(s: State, c: nat)
    requires OwnerInv(s) && c < |s.consumers| && s.consumers[c].Freeing?
    ensures var b := s.consumers[c].block;
            !IsHeld(s.held, b) && b in s.blocks && forall k :: 0 <= k < |HandOf(s.producer)| ==> HandOf(s.producer)[k] != b
  {
    hide HandOf, Accounted;
    var b := s.consumers[c].block;
    assert FreeOf(s.consumers[c]) == Some(b);
    assert IsFreeing(s.consumers, b);
  }

  lemma FreeReads(s: State, c: nat, to: Consumer)
    requires Reads(s.consumers, s.read, s.head, s.done, s.enqueued) && c < |s.consumers| && s.consumers[c].Freeing?
    requires forall k: nat {:trigger InFlight(to, k)} :: InFlight(to, k) <==> s.consumers[c].pos <= k < s.consumers[c].end
    requires to.Idle? || PosOf(to) == s.consumers[c].pos
    ensures Reads(s.consumers[c := to], s.read, s.head, s.done, s.enqueued)
  {
    assert ReadUpTo(s.consumers[c], s.read);
    forall k: nat | InFlight(to, k)
      ensures k in s.read <==> k < PosOf(to)
    {
      assert InFlight(s.consumers[c], k);
    }
  }

  lemma FreeProducer(s: State, s': State, b: BlockId)
    requires ProducerOk(s) && !IsHeld(s.held, b)
    requires forall k :: 0 <= k < |HandOf(s.producer)| ==> HandOf(s.producer)[k] != b
    requires s' == s.(blocks := s.blocks - {b}, consumers := s'.consumers)
    ensures ProducerOk(s')
  {
    hide Linked, BlocksFor, EntryOf, Floor, Find;
    if s.producer.Linking? {
      assert HandOf(s.producer)[0] == s.producer.block;
    }
    forall k: nat, x
      ensures InCell(s.held, s.blocks, k, x) ==> InCell(s.held, s'.blocks, k, x)
    {
    }
  }

  // ---------------------------------------------------------------- every step

  /** Whatever step comes next, it finds its headers, entries and blocks: no null pointer, no index out of range. */
  lemma AccessesAreSafe(s: State)
    requires Inv(s)
    ensures Sized(s) && EntryInRange(s)
    ensures forall c {:trigger s.consumers[c]} :: 0 <= c < |s.consumers| ==> !s.consumers[c].NullPointer? && CanConsume(s, c)
  {
    hide OwnerInv, ContentInv, BlocksOk, Released, Disjoint, BudgetOf, Values, Keys, AllKnow, TailsOk, Slot, Floor, BlocksFor, Linked,
         Filled, IsCapacity, Top;
    ShapeSized(s.headers, |s.keys|);
    ShapeLast(s.headers, |s.keys|);
    EntryBound(Last(s.headers), |s.keys|, SkipOf(s.producer, BlocksFor(s.tail)));
    forall c | 0 <= c < |s.consumers|
      ensures !s.consumers[c].NullPointer? && CanConsume(s, c)
    {
      ConsumerIsSafe(s, c);
    }
  }

  lemma ShapeSized(headers: seq<Header>, entries: nat)
    requires Shape(headers, entries)
    ensures headers != [] && forall i :: 0 <= i < |headers| ==> HeaderSized(headers[i], entries)
  {
    hide IsCapacity;
    forall i | 0 <= i < |headers|
      ensures HeaderSized(headers[i], entries)
    {
      assert HeaderOk(headers[i], entries);
      CapacityBounds(headers[i].capacity);
    }
  }

  lemma ConsumerIsSafe(s: State, c: nat)
    requires ConsumerInv(s) && Sized(s) && c < |s.consumers|
    ensures !s.consumers[c].NullPointer? && CanConsume(s, c)
  {
    hide Claims, Released, BlocksOk, Sees;
    assert ConsumerShape(s.consumers[c]) by { ShapesOf(s, c); }
    assert LookOk(s.headers, s.keyed, s.consumers[c]);
    SeesHeader(s, s.consumers[c]);
  }

  lemma ShapesOf(s: State, c: nat)
    requires ConsumerInv(s) && c < |s.consumers|
    ensures ConsumerShape(s.consumers[c])
  {
  }

  lemma SeesHeader(s: State, c: Consumer)
    requires Sized(s)
    ensures forall h: nat, end: nat, b: int {:trigger Sees(s.headers, s.keyed, h, end), Slot(s.headers[h], b)} ::
              Sees(s.headers, s.keyed, h, end) ==> Points(s, h, Slot(s.headers[h], b))
    ensures forall h: nat, end: nat {:trigger Sees(s.headers, s.keyed, h, end)} :: Sees(s.headers, s.keyed, h, end) ==> h < |s.headers|
  {
    forall h: nat, end: nat, b: int | Sees(s.headers, s.keyed, h, end)
      ensures Points(s, h, Slot(s.headers[h], b))
    {
      assert HeaderSized(s.headers[h], |s.keys|);
      SlotBound(s.headers[h], b);
    }
  }

  lemma StepKeeps(s: State, e: Event)
    requires Inv(s) && Enabled(s, e) && ClaimCovered(s, e)
    ensures Inv(Step(s, e))
  {
    hide Inv, Sized, DoCheck, DoProbe, DoGrow, DoStoreKey, DoStoreTail, DoRequisition, DoLink, DoFill, DoRewind, DoNull, DoUndo,
         DoUndoRewind, DoReturn, ConsumerStep;
    match e
    case Enqueue(vals) => EnqueueKeeps(s, vals);
    case Consume(c, n) => ConsumeKeeps(s, c, n);
    case Produce(ok, block, cells, junk) =>
      match s.producer {
        case Checking(_, _) => CheckKeeps(s);
        case Probing(_, _) => ProbeKeeps(s);
        case Growing(_, _) => GrowKeeps(s, ok, junk);
        case StoringKey(_, _) => StoreKeyKeeps(s);
        case StoringTail(_, _, _) => StoreTailKeeps(s);
        case Requisitioning(_, _, _) => RequisitionKeeps(s, ok, block, cells);
        case Linking(_, _, _, _) => LinkKeeps(s);
        case Filling(_, _, _) => if s.producer.written < |s.producer.vals| { FillKeeps(s); } else { PublishKeeps(s); }
        case Rewinding(_, _) => RewindKeeps(s);
        case Nulling(_, _) => NullKeeps(s);
        case Undoing(_, _) => UndoKeeps(s);
        case UndoRewinding(_, _) => UndoRewindKeeps(s);
        case Returning(_) => ReturnKeeps(s);
        case Resting =>
      }
  }

  lemma ConsumeKeeps(s: State, c: nat, n: nat)
    requires Inv(s) && c < |s.consumers| && CanConsume(s, c)
    requires s.consumers[c].Idle? ==> 0 < n && s.head + n <= s.tail
    ensures Inv(ConsumerStep(s, c, n))
  {
    hide Inv, Sized, DoLookup, DoLoadBlock, DoRead, DoUnlink, DoFree, SetConsumer, StopOf;
    match s.consumers[c]
    case Idle => ClaimKeeps(s, c, n);
    case Claimed(_, _) => HeaderKeeps(s, c);
    case HasHeader(_, _, _) => TailKeeps(s, c);
    case HasTail(_, _, _, _) => LookupKeeps(s, c);
    case AtSlot(_, _, _, _) => LoadBlockKeeps(s, c);
    case Reading(_, _, _, _, _, _) =>
      if s.consumers[c].pos < StopOf(s.consumers[c].start, s.consumers[c].end) { ReadElementKeeps(s, c); } else { CountKeeps(s, c); }
    case Unlinking(_, _, _, _, _) => UnlinkKeeps(s, c);
    case Freeing(_, _, _, _, _) => FreeKeeps(s, c);
    case NullPointer =>
  }

  // ---------------------------------------------------------------- runs

  /** The constructor: an empty index of 32 entries, whose values are whatever the memory held. */
  ghost predicate Init(s: State) {
    && s.tail == s.head == 0 && s.keyed == 0 && s.lo == 0
    && s.headers == [Header(BLOCK_SIZE, BLOCK_SIZE - 1, seq(BLOCK_SIZE, j requires 0 <= j => j), 0, 0)]
    && |s.keys| == |s.values| == BLOCK_SIZE && (forall j :: 0 <= j < BLOCK_SIZE ==> s.keys[j] == INVALID_BLOCK_BASE)
    && s.blocks == map[] && s.producer == Resting
    && s.enqueued == [] && s.held == map[] && s.done == {} && s.read == map[]
    && forall i :: 0 <= i < |s.consumers| ==> s.consumers[i] == Idle
  }

  ghost predicate IsRun(ws: seq<State>, es: seq<Event>) {
    && |ws| == |es| + 1 && Init(ws[0])
    && forall i :: 0 <= i < |es| ==> Enabled(ws[i], es[i]) && ClaimCovered(ws[i], es[i]) && ws[i + 1] == Step(ws[i], es[i])
  }

  lemma InitIsOk(s: State)
    requires Init(s)
    ensures Inv(s)
  {
    hide IsCapacity, Slot;
    var h := s.headers[0];
    InitCapacity();
    InitSlot(h);
    forall b: int | s.keyed - h.capacity <= b < s.keyed
      ensures KeyOk(h, s.keys, s.lo, b)
    {
      SlotBound(h, b);
    }
    assert HeaderOk(h, |s.keys|);
  }

  lemma InitCapacity()
    ensures IsCapacity(BLOCK_SIZE)
  {
    assert BLOCK_SIZE == BLOCK_SIZE * Pow2(0);
  }

  lemma InitSlot(h: Header)
    requires h.capacity == BLOCK_SIZE && h.base == 0
    ensures Slot(h, -1) == BLOCK_SIZE - 1
  {
  }

  lemma {:induction false} RunKeeps(ws: seq<State>, es: seq<Event>, i: nat)
    requires IsRun(ws, es) && i < |ws|
    ensures Inv(ws[i])
  {
    hide Inv, Enabled, ClaimCovered, Step, Init;
    if i == 0 {
      InitIsOk(ws[0]);
    } else {
      RunKeeps(ws, es, i - 1);
      StepKeeps(ws[i - 1], es[i - 1]);
    }
  }

  // ---------------------------------------------------------------- what follows

  /** A lookup is never overtaken: whatever the producer inserts, rewinds or doubles in the meantime, the slot
      that a consumer finds for an element holds an entry keyed by the base of that element's block, and the
      entry points at that block. */
  lemma LookupIsNeverOvertaken(ws: seq<State>, es: seq<Event>, i: nat, c: nat)
    requires IsRun(ws, es) && i < |ws| && c < |ws[i].consumers| && ws[i].consumers[c].AtSlot?
    ensures var s, AtSlot(k, end, h, slot) := ws[i], ws[i].consumers[c];
            && Sized(s) && Points(s, h, slot)
            && s.keys[s.headers[h].index[slot]] == Base(k / BLOCK_SIZE)
            && k / BLOCK_SIZE in s.held
            && s.held[k / BLOCK_SIZE] in s.blocks
            && s.values[s.headers[h].index[slot]] == Some(s.held[k / BLOCK_SIZE])
  {
    hide Inv, IsRun, CanConsume;
    RunKeeps(ws, es, i);
    AccessesAreSafe(ws[i]);
    SlotIsRight(ws[i], c);
  }

  /** What is read for an element is what was enqueued under its number: together with the order of the
      claims, first in, first out. */
  lemma ReadsAreFifo(ws: seq<State>, es: seq<Event>, i: nat)
    requires IsRun(ws, es) && i < |ws|
    ensures forall k <- ws[i].read :: k < ws[i].head && k < |ws[i].enqueued| && ws[i].read[k] == Some(ws[i].enqueued[k])
  {
    hide IsRun, IndexInv, OwnerInv, ConsumerInv, ProducerOk;
    RunKeeps(ws, es, i);
  }

  /** Nobody reads an element twice: a step that reads adds an element that was not read before. */
  lemma EachElementIsReadOnce(ws: seq<State>, es: seq<Event>, i: nat, c: nat)
    requires IsRun(ws, es) && i < |ws| && c < |ws[i].consumers| && ws[i].consumers[c].Reading?
    requires ws[i].consumers[c].pos < StopOf(ws[i].consumers[c].start, ws[i].consumers[c].end)
    ensures ws[i].consumers[c].pos !in ws[i].read
  {
    hide IsRun, Inv;
    RunKeeps(ws, es, i);
    ReadIsRight(ws[i], c);
  }

  /** set_many_empty says "full" to exactly the consumer that completes the block, and its count never
      passes the block size. */
  lemma OnlyTheLastConsumerSeesFull(ws: seq<State>, es: seq<Event>, i: nat, c: nat)
    requires IsRun(ws, es) && i < |ws| && c < |ws[i].consumers| && ws[i].consumers[c].Reading?
    requires ws[i].consumers[c].pos >= StopOf(ws[i].consumers[c].start, ws[i].consumers[c].end)
    ensures var s, Reading(k, end, h, slot, b, start) := ws[i], ws[i].consumers[c];
            && b in s.blocks && start < k
            && s.blocks[b].completed + (k - start) <= BLOCK_SIZE
            && !AllDone(s.done, start / BLOCK_SIZE)
            && (s.blocks[b].completed + (k - start) == BLOCK_SIZE <==> AllDone(s.done + Span(start, k), start / BLOCK_SIZE))
  {
    hide IsRun, Inv, StopOf, Range;
    RunKeeps(ws, es, i);
    CountIsExact(ws[i], c);
    PartEnds(ws[i], c);
    InRange(ws[i].consumers[c].start, ws[i].consumers[c].start / BLOCK_SIZE);
  }

  /** A block leaves the ring only when every element of it is done, and goes back to the pool only then; no
      two consumers release the same one. */
  lemma ReleasedWhenEmpty(ws: seq<State>, es: seq<Event>, i: nat, c: nat, d: nat)
    requires IsRun(ws, es) && i < |ws| && c < |ws[i].consumers| && d < |ws[i].consumers| && c != d
    ensures var s := ws[i];
            && (s.consumers[c].Unlinking? ==> AllDone(s.done, BlockBefore(s.consumers[c].pos)))
            && (s.consumers[c].Freeing? ==> !IsHeld(s.held, s.consumers[c].block) && s.consumers[c].block in s.blocks)
            && (s.consumers[c].Unlinking? && s.consumers[d].Unlinking? ==>
                  s.consumers[c].block != s.consumers[d].block)
            && (s.consumers[c].Freeing? && s.consumers[d].Freeing? ==> s.consumers[c].block != s.consumers[d].block)
            && (s.consumers[c].Unlinking? && s.consumers[d].Freeing? ==> s.consumers[c].block != s.consumers[d].block)
  {
    hide IsRun, IndexInv, ContentInv, ProducerOk, Range, Claims, Looks, Released, Accounted, AllDone;
    RunKeeps(ws, es, i);
    var s := ws[i];
    assert BlockOk(s.held, s.done, s.consumers[c]) && BlockOk(s.held, s.done, s.consumers[d]);
    ReleaseDistinct(s, if c < d then c else d, if c < d then d else c);
    if s.consumers[c].Freeing? {
      FreeIsOut(s, c);
    }
    if s.consumers[d].Freeing? {
      FreeIsOut(s, d);
    }
  }

  lemma ReleaseDistinct(s: State, c: nat, d: nat)
    requires OwnerInv(s) && BlocksOk(s.held, s.done, s.consumers) && c < d < |s.consumers|
    ensures s.consumers[c].Freeing? && s.consumers[d].Freeing? ==> s.consumers[c].block != s.consumers[d].block
    ensures s.consumers[c].Unlinking? && s.consumers[d].Unlinking? ==> s.consumers[c].block != s.consumers[d].block
  {
    hide Accounted, AllDone;
    assert FreeOf(s.consumers[c]).Some? ==> FreeOf(s.consumers[c]) != FreeOf(s.consumers[d]);
    assert UnlinkOf(s.consumers[c]).Some? ==> UnlinkOf(s.consumers[c]) != UnlinkOf(s.consumers[d]);
    assert BlockOk(s.held, s.done, s.consumers[c]) && BlockOk(s.held, s.done, s.consumers[d]);
  }

  /** Once a published block has been unlinked, its number never comes back. */
  lemma ReleasedForGood(s: State, e: Event, b: nat)
    requires Inv(s) && Enabled(s, e) && b < BlocksFor(s.tail) && b !in s.held
    ensures b !in Step(s, e).held && BlocksFor(s.tail) <= BlocksFor(Step(s, e).tail)
  {
    hide Inv, BlocksFor, Sized, SlotFor, Full, LookupSlot, Write, Counted;
    if e.Produce? && s.producer.Filling? {
      BlocksForMonotone(s.tail, s.tail + |s.producer.vals|);
    }
  }

  /** When nothing is in progress no block is missing: the blocks taken from the pool are those in the ring,
      and they are the ones that still hold elements to come or to dequeue; everything below the head has been
      read. A failed enqueue has returned all it took. */
  lemma NothingLeaks(ws: seq<State>, es: seq<Event>, i: nat)
    requires IsRun(ws, es) && i < |ws| && ws[i].producer == Resting && forall c :: 0 <= c < |ws[i].consumers| ==> ws[i].consumers[c] == Idle
    ensures var s := ws[i];
            && s.blocks.Keys == s.held.Values
            && s.done == Span(0, s.head) && (forall k: nat :: k < s.head ==> k in s.read)
            && (forall b: nat :: b in s.held <==> b < BlocksFor(s.tail) && BLOCK_SIZE * b + BLOCK_SIZE > s.head)
  {
    hide Inv, IsRun, BlocksFor;
    RunKeeps(ws, es, i);
    QuietRing(ws[i]);
  }

  lemma QuietRing(s: State)
    requires Inv(s) && s.producer == Resting && forall c :: 0 <= c < |s.consumers| ==> s.consumers[c] == Idle
    ensures s.blocks.Keys == s.held.Values
    ensures s.done == Span(0, s.head) && forall k: nat :: k < s.head ==> k in s.read
    ensures forall b: nat :: b in s.held <==> b < BlocksFor(s.tail) && BLOCK_SIZE * b + BLOCK_SIZE > s.head
  {
    hide IndexInv, BlocksFor, Data, Counts, IsFreeing, Looks, BlocksOk, Values, BudgetOf, ReadUpTo;
    AllIdle(s.consumers, s.head, s.done);
    forall k: nat | k < s.head
      ensures k in s.read
    {
      assert Between(0, k, s.head);
      assert k in s.done;
    }
    forall b: nat
      ensures b in s.held <==> b < BlocksFor(s.tail) && BLOCK_SIZE * b + BLOCK_SIZE > s.head
    {
      IdleBlock(s, b);
    }
    forall id | id in s.blocks
      ensures id in s.held.Values
    {
      NobodyFreeing(s.consumers, id);
      var b :| b in s.held && s.held[b] == id;
    }
  }

  lemma NobodyFreeing(cs: seq<Consumer>, id: BlockId)
    requires forall c :: 0 <= c < |cs| ==> cs[c] == Idle
    ensures !IsFreeing(cs, id)
  {
  }

  lemma AllIdle(cs: seq<Consumer>, head: nat, done: set<nat>)
    requires Claims(cs, head, done) && forall c :: 0 <= c < |cs| ==> cs[c] == Idle
    ensures done == Span(0, head)
    ensures forall b: nat :: !IsUnlinking(cs, b)
  {
    forall k: nat
      ensures k in done <==> k in Span(0, head)
    {
      assert Between(0, k, head) <==> k < head;
    }
  }

  lemma IdleBlock(s: State, b: nat)
    requires ConsumerInv(s) && ProducerOk(s) && s.producer == Resting && Room(s) && s.done == Span(0, s.head)
    requires forall n: nat :: !IsUnlinking(s.consumers, n)
    ensures b in s.held <==> b < BlocksFor(s.tail) && BLOCK_SIZE * b + BLOCK_SIZE > s.head
  {
    hide Claims, Looks, BlocksOk, BlocksFor, IsUnlinking, BudgetOf;
    var last := BLOCK_SIZE * b + BLOCK_SIZE - 1;
    InRange(last, b);
    assert Between(0, last, s.head) <==> last < s.head;
    if last < s.head {
      forall k | k in Range(b)
        ensures k in s.done
      {
        assert Between(0, k, s.head);
      }
    }
  }

  // ---- facts the other layers use

  /** Publishing keeps the elements waiting below half the index range, and the counter in words never
      looks as if the head had passed the tail. */
  lemma PublishFits(s: State)
    requires Inv(s) && s.producer.Filling?
    ensures s.tail + |s.producer.vals| < s.head + HALF
  {
    hide IndexInv, OwnerInv, ConsumerInv, ContentInv, BlocksFor, Filled, Linked;
    BlocksForBounds(s.tail + |s.producer.vals|);
  }

  lemma TailIsNeverBehindHead(ws: seq<State>, es: seq<Event>, i: nat)
    requires IsRun(ws, es) && i < |ws| && ws[i].producer.Checking?
    ensures !Less(W(BLOCK_SIZE * NextBlock(ws[i], ws[i].producer.got)), W(ws[i].head))
    ensures Full(NextBlock(ws[i], ws[i].producer.got), ws[i].head) <==>
            BLOCK_SIZE * NextBlock(ws[i], ws[i].producer.got) + BLOCK_SIZE - ws[i].head >= HALF
  {
    hide IsRun, IndexInv, OwnerInv, ConsumerInv, ContentInv, BlocksFor, Linked, Full, Less;
    RunKeeps(ws, es, i);
    BlocksForBounds(ws[i].tail);
    FullIff(NextBlock(ws[i], ws[i].producer.got), ws[i].head);
  }

  /** After growth the slot for the new block is a new entry. */
  lemma GrowthMakesRoom(s: State, junk: seq<Option<BlockId>>)
    requires Inv(s) && Sized(s) && s.producer.Growing?
    requires |junk| == Current0(s).capacity && 2 * Current0(s).capacity * BLOCK_SIZE <= HALF
    ensures var s' := DoGrow(s, true, junk);
            && Sized(s')
            && s'.keys[Current(s').index[NextSlot(Current(s'))]] == INVALID_BLOCK_BASE
  {
    hide ProducerOk, Grown, OwnerInv, ConsumerInv, ContentInv, Room, Ring, Values, BlocksFor;
    var s' := DoGrow(s, true, junk);
    GrowKeeps(s, true, junk);
    AccessesAreSafe(s');
    GrownCapacity(s, s');
    GrowingNext(s);
    FreshSlot(s'.headers, s'.keys, s'.keyed, s'.lo);
  }

  lemma GrowingNext(s: State)
    requires ProducerOk(s) && s.producer.Growing?
    ensures NextOf(s.producer, BlocksFor(s.tail)) == s.keyed
  {
  }

  lemma FreshSlot(headers: seq<Header>, keys: seq<Word>, keyed: nat, lo: int)
    requires Ring(headers, keys, keyed, lo, keyed) && lo > keyed - Last(headers).capacity
    ensures Last(headers).capacity > 0 && Last(headers).index[NextSlot(Last(headers))] < |keys|
    ensures keys[Last(headers).index[NextSlot(Last(headers))]] == INVALID_BLOCK_BASE
  {
    hide Slot, IsCapacity, AllKnow, Base, TailsOk, Shape, EntryOf;
    var h := Last(headers);
    TailSlot(headers, keys, keyed, lo, keyed);
    SlotWraps(h, keyed - h.capacity);
    SameSlotSameEntry(h, keyed - h.capacity, keyed);
    assert KeyOk(h, keys, lo, keyed - h.capacity);
  }

  lemma SameSlotSameEntry(h: Header, a: int, b: int)
    requires Slot(h, a) == Slot(h, b)
    ensures EntryOf(h, a) == EntryOf(h, b)
  {
  }
}
