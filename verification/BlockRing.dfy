/** One sub-queue: its producer, which adds blocks to a growing ring of block-index entries, and its
    consumers, which look blocks up in that ring and empty them, as an interleaving of atomic operations.

    Elements are numbered 0, 1, 2, ... in the order in which they are enqueued; element i lives in block
    number i / 32. tailIndex and headIndex are the numbers `tail` and `head` modulo 2^64. */
module BlockRing {
  import opened Wrappers
  import opened Words

  type Value = nat
  type BlockId = nat

  const BLOCK_SIZE := 32
  const INVALID_BLOCK_BASE: Word := 1

  /** A BlockIndexHeader. `index` points into the table of entries; `base` and `top` are history: block
      number b belongs at slot (base + b) % capacity, and `top` is how many blocks had been entered when
      a larger header replaced this one. */
  datatype Header = Header(capacity: nat, tail: nat, index: seq<nat>, base: nat, top: nat)

  datatype Block = Block(completed: nat, cells: seq<Option<Value>>)

  /** The producer, named after what it does next. `vals` are the elements of the running enqueue or
      enqueue_bulk, `got` the blocks it has added for them so far, `entry` is idxEntry. */
  datatype Producer =
    | Resting
    | Checking(vals: seq<Value>, got: seq<BlockId>)
    | Probing(vals: seq<Value>, got: seq<BlockId>)
    | Growing(vals: seq<Value>, got: seq<BlockId>)
    | StoringKey(vals: seq<Value>, got: seq<BlockId>)
    | StoringTail(vals: seq<Value>, got: seq<BlockId>, entry: nat)
    | Requisitioning(vals: seq<Value>, got: seq<BlockId>, entry: nat)
    | Linking(vals: seq<Value>, got: seq<BlockId>, entry: nat, block: BlockId)
    | Filling(vals: seq<Value>, got: seq<BlockId>, written: nat)
    | Rewinding(got: seq<BlockId>, entry: nat)
    | Nulling(got: seq<BlockId>, entry: nat)
    | Undoing(got: seq<BlockId>, undone: nat)
    | UndoRewinding(got: seq<BlockId>, undone: nat)
    | Returning(got: seq<BlockId>)

  /** A consumer of the elements from `pos` up to `end`; `header` and `slot` are localBlockIndex and indexIndex,
      `start` is blockStartIndex. NullPointer is where a failed lookup would lead. */
  datatype Consumer =
    | Idle
    | Claimed(pos: nat, end: nat)
    | HasHeader(pos: nat, end: nat, header: nat)
    | HasTail(pos: nat, end: nat, header: nat, tail: nat)
    | AtSlot(pos: nat, end: nat, header: nat, slot: nat)
    | Reading(pos: nat, end: nat, header: nat, slot: nat, block: BlockId, start: nat)
    | Unlinking(pos: nat, end: nat, header: nat, slot: nat, block: BlockId)
    | Freeing(pos: nat, end: nat, header: nat, slot: nat, block: BlockId)
    | NullPointer

  datatype State = State(
    tail: nat,
    head: nat,
    headers: seq<Header>,               // the last one is *blockIndex
    keys: seq<Word>,                    // the entries: key and value
    values: seq<Option<BlockId>>,
    blocks: map<BlockId, Block>,        // the blocks this sub-queue has taken from the pool
    tailBlock: BlockId,
    producer: Producer,
    consumers: seq<Consumer>,
    // history
    enqueued: seq<Value>,
    keyed: nat,                         // block numbers below this have been entered in the ring
    lo: int,                            // and those below this are no longer kept by the current header
    held: map<nat, BlockId>,            // block number -> block, from linking to unlinking
    done: set<nat>,                     // elements counted in elementsCompletelyDequeued
    read: map<nat, Option<Value>>)      // what was read for an element

  // ---------------------------------------------------------------- indices and slots

  function Base(b: int): Word {
    W(BLOCK_SIZE * b)
  }

  function Signed(w: Word): int {
    if w < HALF then w else w - M
  }

  /** C++ division by the block size: towards zero. */
  function OverBlockSize(x: int): int {
    if x >= 0 then x / BLOCK_SIZE else -(-x / BLOCK_SIZE)
  }

  /** get_block_index_index_for_index, given the tail slot and its key. */
  function LookupSlot(capacity: nat, tail: nat, tailBase: Word, index: nat): nat
    requires capacity > 0
  {
    W(tail + OverBlockSize(Signed(Minus(Base(index / BLOCK_SIZE), tailBase)))) % capacity
  }

  function Slot(h: Header, b: int): nat {
    if h.capacity == 0 then 0 else (h.base + b) % h.capacity
  }

  /** How many blocks hold n elements. */
  function BlocksFor(n: nat): nat {
    (n + BLOCK_SIZE - 1) / BLOCK_SIZE
  }

  /** endIndex: where the part of a claim that lies in the block of `start` stops. */
  function StopOf(start: nat, end: nat): nat {
    Min(end, (start / BLOCK_SIZE + 1) * BLOCK_SIZE)
  }

  /** The producer may not start block number x: the index range would be half used up. */
  predicate Full(x: nat, head: nat) {
    !Less(W(head), W(BLOCK_SIZE * x + BLOCK_SIZE))
  }

  function Pow2(k: nat): nat {
    if k == 0 then 1 else 2 * Pow2(k - 1)
  }

  /** A power of two from the initial size on, small enough for the table to fit in memory. */
  ghost predicate IsCapacity(c: nat) {
    exists k: nat :: k <= 53 && c == BLOCK_SIZE * Pow2(k)
  }

  // ---------------------------------------------------------------- the producer's steps

  datatype Event =
    | Enqueue(vals: seq<Value>)
    | Produce(ok: bool, block: BlockId, cells: seq<Option<Value>>, junk: seq<Option<BlockId>>)
    | Consume(c: nat, count: nat)

  function Current(s: State): Header
    requires s.headers != []
  {
    s.headers[|s.headers| - 1]
  }

  function SetTail(s: State, tail: nat): seq<Header>
    requires s.headers != []
  {
    s.headers[|s.headers| - 1 := Current(s).(tail := tail)]
  }

  function NextSlot(h: Header): nat
    requires h.capacity > 0
  {
    (h.tail + 1) % h.capacity
  }

  function PreviousSlot(h: Header): nat
    requires h.capacity > 0
  {
    (h.tail - 1) % h.capacity
  }

  /** The block number that the producer is about to add. */
  function NextBlock(s: State, got: seq<BlockId>): nat {
    BlocksFor(s.tail) + |got|
  }

  /** new_block_index: the old entries in ring order from just past the tail, then new ones. */
  function Grown(h: Header, tailBlock: int, firstNew: nat): Header
    requires 0 < h.capacity == |h.index|
  {
    Header(2 * h.capacity, h.capacity - 1,
           seq(2 * h.capacity, j requires 0 <= j < 2 * h.capacity =>
             if j < h.capacity then h.index[(h.tail + 1 + j) % h.capacity] else firstNew + j - h.capacity),
           (h.capacity - 1 - tailBlock) % (2 * h.capacity), 0)
  }

  /** Shapes that keep every array access of a step in bounds. */
  ghost predicate Sized(s: State) {
    && s.headers != [] && |s.keys| == |s.values|
    && (forall i :: 0 <= i < |s.headers| ==> HeaderSized(s.headers[i], |s.keys|))
  }

  ghost predicate HeaderSized(h: Header, entries: nat) {
    && h.capacity > 0 && |h.index| == h.capacity && h.tail < h.capacity
    && (forall j :: 0 <= j < h.capacity ==> h.index[j] < entries)
  }

  function DoCheck(s: State): State
    requires s.producer.Checking?
  {
    var Checking(vals, got) := s.producer;
    if BlocksFor(s.tail) + |got| >= BlocksFor(s.tail + |vals|) then s.(producer := Filling(vals, got, 0))
    else if Full(NextBlock(s, got), s.head) then s.(producer := Undoing(got, 0))
    else s.(producer := Probing(vals, got))
  }

  ghost function DoProbe(s: State): State
    requires Sized(s) && s.producer.Probing?
  {
    var Probing(vals, got) := s.producer;
    var e := Current(s).index[NextSlot(Current(s))];
    s.(producer := if s.keys[e] == INVALID_BLOCK_BASE || s.values[e] == None then StoringKey(vals, got)
                   else Growing(vals, got))
  }

  /** The new header is built in private memory and published by one store. */
  ghost function DoGrow(s: State, ok: bool, junk: seq<Option<BlockId>>): State
    requires Sized(s) && s.producer.Growing?
  {
    var Growing(vals, got) := s.producer;
    var h := Current(s);
    if !ok then s.(producer := Undoing(got, 0))
    else s.(headers := s.headers[|s.headers| - 1 := h.(top := s.keyed)] + [Grown(h, NextBlock(s, got) - 1, |s.keys|)],
            keys := s.keys + seq(h.capacity, _ => INVALID_BLOCK_BASE),
            values := s.values + junk,
            lo := s.keyed - h.capacity,
            producer := StoringKey(vals, got))
  }

  ghost function DoStoreKey(s: State): State
    requires Sized(s) && s.producer.StoringKey?
  {
    var StoringKey(vals, got) := s.producer;
    var x := NextBlock(s, got);
    var e := Current(s).index[NextSlot(Current(s))];
    s.(keys := s.keys[e := Base(x)],
       keyed := if x < s.keyed then s.keyed else x + 1,
       producer := StoringTail(vals, got, e))
  }

  ghost function DoStoreTail(s: State): State
    requires Sized(s) && s.producer.StoringTail?
  {
    var StoringTail(vals, got, e) := s.producer;
    s.(headers := SetTail(s, NextSlot(Current(s))), producer := Requisitioning(vals, got, e))
  }

  /** requisition_block: any block that is not in use, with whatever it held before, or none. */
  ghost function DoRequisition(s: State, ok: bool, block: BlockId, cells: seq<Option<Value>>): State
    requires s.producer.Requisitioning?
  {
    var Requisitioning(vals, got, e) := s.producer;
    if !ok then s.(producer := Rewinding(got, e))
    else s.(blocks := s.blocks[block := Block(0, cells)], producer := Linking(vals, got, e, block))
  }

  ghost function DoLink(s: State): State
    requires s.producer.Linking? && s.producer.entry < |s.values|
  {
    var Linking(vals, got, e, b) := s.producer;
    s.(values := s.values[e := Some(b)],
       held := s.held[NextBlock(s, got) := b],
       producer := Checking(vals, got + [b]))
  }

  /** Construct one element in its block, or publish them all. */
  ghost function DoFill(s: State): State
    requires s.producer.Filling?
  {
    var Filling(vals, got, n) := s.producer;
    if n < |vals| then
      s.(blocks := Write(s.blocks, BlockOf(s, got, s.tail + n), (s.tail + n) % BLOCK_SIZE, Some(vals[n])),
         producer := Filling(vals, got, n + 1))
    else
      s.(tail := s.tail + |vals|, enqueued := s.enqueued + vals,
         tailBlock := if got == [] then s.tailBlock else got[|got| - 1],
         producer := Resting)
  }

  /** The block that element i goes to: the old tail block, then those just added. */
  ghost function BlockOf(s: State, got: seq<BlockId>, i: nat): BlockId {
    var b := i / BLOCK_SIZE;
    if BlocksFor(s.tail) <= b < BlocksFor(s.tail) + |got| then got[b - BlocksFor(s.tail)] else s.tailBlock
  }

  ghost function Write(blocks: map<BlockId, Block>, b: BlockId, k: nat, v: Option<Value>): map<BlockId, Block> {
    if b in blocks && k < |blocks[b].cells| then blocks[b := blocks[b].(cells := blocks[b].cells[k := v])] else blocks
  }

  ghost function DoRewind(s: State): State
    requires Sized(s) && s.producer.Rewinding?
  {
    s.(headers := SetTail(s, PreviousSlot(Current(s))), producer := Nulling(s.producer.got, s.producer.entry))
  }

  ghost function DoNull(s: State): State
    requires s.producer.Nulling? && s.producer.entry < |s.values|
  {
    s.(values := s.values[s.producer.entry := None], producer := Undoing(s.producer.got, 0))
  }

  /** get_block_index_entry_for_index of the producer. */
  ghost function SlotFor(s: State, b: nat): nat
    requires Sized(s)
  {
    LookupSlot(Current(s).capacity, Current(s).tail, s.keys[Current(s).index[Current(s).tail]], b * BLOCK_SIZE)
  }

  /** Take back one block of a failed enqueue_bulk: look its entry up and clear it. */
  ghost function DoUndo(s: State): State
    requires Sized(s) && s.producer.Undoing?
  {
    var Undoing(got, k) := s.producer;
    if k >= |got| then s.(producer := Returning(got))
    else
      var b := BlocksFor(s.tail) + k;
      s.(values := s.values[Current(s).index[SlotFor(s, b)] := None], held := s.held - {b}, producer := UndoRewinding(got, k))
  }

  ghost function DoUndoRewind(s: State): State
    requires Sized(s) && s.producer.UndoRewinding?
  {
    s.(headers := SetTail(s, PreviousSlot(Current(s))), producer := Undoing(s.producer.got, s.producer.undone + 1))
  }

  ghost function DoReturn(s: State): State
    requires s.producer.Returning?
  {
    var got := s.producer.got;
    if got == [] then s.(producer := Resting)
    else s.(blocks := s.blocks - {got[0]}, producer := Returning(got[1..]))
  }

  /** What the outside may decide: how many elements, whether memory is there, which block. */
  ghost predicate CanProduce(s: State, e: Event)
    requires e.Produce?
  {
    match s.producer
    case Resting => false
    case Growing(_, _) =>
      e.ok ==> |e.junk| == Current0(s).capacity && 2 * Current0(s).capacity * BLOCK_SIZE <= HALF
    case Requisitioning(_, _, _) => e.ok ==> e.block !in s.blocks && |e.cells| == BLOCK_SIZE
    case _ => true
  }

  ghost function Current0(s: State): Header {
    if s.headers == [] then Header(0, 0, [], 0, 0) else Current(s)
  }

  ghost predicate EntryInRange(s: State) {
    match s.producer
    case Linking(_, _, e, _) => e < |s.values|
    case Nulling(_, e) => e < |s.values|
    case _ => true
  }

  ghost function ProducerStep(s: State, e: Event): State
    requires Sized(s) && EntryInRange(s) && e.Produce?
  {
    match s.producer
    case Resting => s
    case Checking(_, _) => DoCheck(s)
    case Probing(_, _) => DoProbe(s)
    case Growing(_, _) => DoGrow(s, e.ok, e.junk)
    case StoringKey(_, _) => DoStoreKey(s)
    case StoringTail(_, _, _) => DoStoreTail(s)
    case Requisitioning(_, _, _) => DoRequisition(s, e.ok, e.block, e.cells)
    case Linking(_, _, _, _) => DoLink(s)
    case Filling(_, _, _) => DoFill(s)
    case Rewinding(_, _) => DoRewind(s)
    case Nulling(_, _) => DoNull(s)
    case Undoing(_, _) => DoUndo(s)
    case UndoRewinding(_, _) => DoUndoRewind(s)
    case Returning(_) => DoReturn(s)
  }

  // ---------------------------------------------------------------- the consumers' steps

  ghost function SetConsumer(s: State, c: nat, to: Consumer): State
    requires c < |s.consumers|
  {
    s.(consumers := s.consumers[c := to])
  }

  /** After one block: the next one, or done. */
  function NextPart(s: State, pos: nat, end: nat, header: nat, slot: nat): Consumer
    requires header < |s.headers|
  {
    if pos >= end || s.headers[header].capacity == 0 then Idle
    else AtSlot(pos, end, header, (slot + 1) % s.headers[header].capacity)
  }

  /** What a local header and slot of a consumer point at. */
  ghost predicate Points(s: State, header: nat, slot: nat) {
    header < |s.headers| && slot < |s.headers[header].index| && s.headers[header].index[slot] < |s.keys|
  }

  ghost predicate CanConsume(s: State, c: nat)
    requires c < |s.consumers|
  {
    Sized(s) &&
    match s.consumers[c]
    case HasHeader(_, _, h) => h < |s.headers|
    case HasTail(_, _, h, t) => Points(s, h, t)
    case AtSlot(_, _, h, slot) => Points(s, h, slot)
    case Reading(_, _, h, slot, _, _) => Points(s, h, slot)
    case Unlinking(_, _, h, slot, _) => Points(s, h, slot)
    case Freeing(_, _, h, slot, _) => Points(s, h, slot)
    case _ => true
  }

  ghost function DoLookup(s: State, c: nat): State
    requires c < |s.consumers| && s.consumers[c].HasTail? && CanConsume(s, c)
  {
    var HasTail(i, end, h, t) := s.consumers[c];
    SetConsumer(s, c, AtSlot(i, end, h, LookupSlot(s.headers[h].capacity, t, s.keys[s.headers[h].index[t]], i)))
  }

  ghost function DoLoadBlock(s: State, c: nat): State
    requires c < |s.consumers| && s.consumers[c].AtSlot? && CanConsume(s, c)
  {
    var AtSlot(i, end, h, slot) := s.consumers[c];
    var b := s.values[s.headers[h].index[slot]];
    SetConsumer(s, c, if b.Some? && b.value in s.blocks then Reading(i, end, h, slot, b.value, i) else NullPointer)
  }

  ghost function CellOf(s: State, b: BlockId, k: nat): Option<Value> {
    if b in s.blocks && k < |s.blocks[b].cells| then s.blocks[b].cells[k] else None
  }

  ghost predicate Between(from: nat, k: nat, to: nat) {
    from <= k < to
  }

  ghost function Span(from: nat, to: nat): set<nat> {
    set k: nat | k < to && Between(from, k, to)
  }

  /** set_many_empty adds the elements just read to the block's count and says whether it is full. */
  ghost function Counted(blocks: map<BlockId, Block>, b: BlockId, n: nat): map<BlockId, Block> {
    if b in blocks then blocks[b := blocks[b].(completed := blocks[b].completed + n)] else blocks
  }

  /** Move one element out and destroy it, or count the elements read in this block. */
  ghost function DoRead(s: State, c: nat): State
    requires c < |s.consumers| && s.consumers[c].Reading? && CanConsume(s, c)
  {
    var Reading(i, end, h, slot, b, start) := s.consumers[c];
    if i < StopOf(start, end) then
      SetConsumer(s, c, Reading(i + 1, end, h, slot, b, start))
        .(read := s.read[i := CellOf(s, b, i % BLOCK_SIZE)],
          blocks := Write(s.blocks, b, i % BLOCK_SIZE, None))
    else
      var full := b in s.blocks && i >= start && s.blocks[b].completed + (i - start) == BLOCK_SIZE;
      SetConsumer(s, c, if full then Unlinking(i, end, h, slot, b) else NextPart(s, i, end, h, slot))
        .(blocks := Counted(s.blocks, b, if i >= start then i - start else 0),
          done := s.done + Span(start, i))
  }

  /** The number of the block whose last element a consumer has just read. */
  function BlockBefore(i: nat): nat {
    if i == 0 then 0 else (i - 1) / BLOCK_SIZE
  }

  ghost function DoUnlink(s: State, c: nat): State
    requires c < |s.consumers| && s.consumers[c].Unlinking? && CanConsume(s, c)
  {
    var Unlinking(i, end, h, slot, b) := s.consumers[c];
    SetConsumer(s, c, Freeing(i, end, h, slot, b))
      .(values := s.values[s.headers[h].index[slot] := None], held := s.held - {BlockBefore(i)})
  }

  ghost function DoFree(s: State, c: nat): State
    requires c < |s.consumers| && s.consumers[c].Freeing? && CanConsume(s, c)
  {
    var Freeing(i, end, h, slot, b) := s.consumers[c];
    SetConsumer(s, c, NextPart(s, i, end, h, slot)).(blocks := s.blocks - {b})
  }

  ghost function ConsumerStep(s: State, c: nat, count: nat): State
    requires c < |s.consumers| && CanConsume(s, c)
  {
    match s.consumers[c]
    case Idle => SetConsumer(s, c, Claimed(s.head, s.head + count)).(head := s.head + count)
    case Claimed(i, end) => SetConsumer(s, c, HasHeader(i, end, |s.headers| - 1))
    case HasHeader(i, end, h) => SetConsumer(s, c, HasTail(i, end, h, s.headers[h].tail))
    case HasTail(_, _, _, _) => DoLookup(s, c)
    case AtSlot(_, _, _, _) => DoLoadBlock(s, c)
    case Reading(_, _, _, _, _, _) => DoRead(s, c)
    case Unlinking(_, _, _, _, _) => DoUnlink(s, c)
    case Freeing(_, _, _, _, _) => DoFree(s, c)
    case NullPointer => s
  }

  /** A claim stays below the tail: the ticket protocol sees to that (see Subqueue). */
  ghost predicate ClaimCovered(s: State, e: Event) {
    e.Consume? && e.c < |s.consumers| && s.consumers[e.c].Idle? ==> 0 < e.count && s.head + e.count <= s.tail
  }

  ghost predicate Enabled(s: State, e: Event) {
    match e
    case Enqueue(vals) => s.producer.Resting? && vals != []
    case Produce(_, _, _, _) => Sized(s) && EntryInRange(s) && CanProduce(s, e)
    case Consume(c, _) => c < |s.consumers| && CanConsume(s, c)
  }

  ghost function Step(s: State, e: Event): State
    requires Enabled(s, e)
  {
    match e
    case Enqueue(vals) => s.(producer := Checking(vals, []))
    case Produce(_, _, _, _) => ProducerStep(s, e)
    case Consume(c, count) => ConsumerStep(s, c, count)
  }
}
