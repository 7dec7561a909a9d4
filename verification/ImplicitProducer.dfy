/** The implicit producer of one sub-queue as the object that enqueue, enqueue_bulk, dequeue and dequeue_bulk
    update in place, run one call after another. Its ghost field follows the model of BlockRing.dfy step by
    step, so every call keeps that model's invariant; seen from outside the object is a plain sequence. */
module ImplicitProducer {
  import opened Wrappers
  import opened Words
  import opened BlockRing
  import opened RingIndex
  import opened RingBlocks
  import R = RingRun
  import T = Tickets

  /** m2 differs from m only in the ring index and in what the producer does next. */
  ghost predicate RingOnly(m: State, m2: State) {
    m2 == m.(headers := m2.headers, keys := m2.keys, values := m2.values, keyed := m2.keyed, lo := m2.lo, producer := m2.producer)
  }

  /** m2 holds the same elements as m. */
  ghost predicate SameElements(m: State, m2: State) {
    && m2.tail == m.tail && m2.head == m.head && m2.enqueued == m.enqueued && m2.tailBlock == m.tailBlock
    && m2.consumers == m.consumers && m2.done == m.done && m2.read == m.read
  }

  /** m2 differs from m only in what a consumer has done to blocks. */
  ghost predicate ConsumerOnly(m: State, m2: State) {
    m2 == m.(consumers := m2.consumers, blocks := m2.blocks, values := m2.values, held := m2.held, done := m2.done, read := m2.read)
  }

  /** The current header has not been replaced. */
  ghost predicate SameRing(m: State, m2: State) {
    Last(m2.headers).base == Last(m.headers).base && Last(m2.headers).capacity == Last(m.headers).capacity
  }

  /** blocks is old and the newly taken got. */
  ghost predicate With(blocks: map<BlockId, Block>, old_: map<BlockId, Block>, got: seq<BlockId>) {
    && (forall id <- got :: id in blocks && id !in old_)
    && (forall id <- blocks :: id in old_ || id in got)
    && (forall id <- old_ :: id in blocks && blocks[id] == old_[id])
  }

  ghost function NewModel(): State {
    State(0, 0, [Header(BLOCK_SIZE, BLOCK_SIZE - 1, seq(BLOCK_SIZE, j requires 0 <= j => j), 0, 0)],
          seq(BLOCK_SIZE, _ => INVALID_BLOCK_BASE), seq(BLOCK_SIZE, _ => None), map[], 0, Resting, [Idle],
          [], 0, 0, map[], {}, map[])
  }

  lemma NewModelIsOk()
    ensures R.Inv(NewModel()) && Sized(NewModel())
    ensures Slot(Last(NewModel().headers), -1) == BLOCK_SIZE - 1 && BlocksFor(0) == 0
  {
    R.InitIsOk(NewModel());
    R.AccessesAreSafe(NewModel());
    R.InitSlot(Last(NewModel().headers));
  }

  class ImplicitProducer {
    var tailIndex: nat
    var headIndex: nat
    var dequeueOptimisticCount: nat
    var dequeueOvercommit: nat
    var tailBlock: BlockId
    /** Whether the constructor got a block index; without one the sub-queue never holds an element. */
    const indexed: bool
    // the current BlockIndexHeader, and all entries
    var capacity: nat
    var indexTail: nat
    var index: array<nat>
    var keys: seq<Word>
    var values: seq<Option<BlockId>>
    var blocks: map<BlockId, Block>
    ghost var model: State
    /** How often there was no memory. */
    ghost var refused: nat

    twostate predicate Untouched()
      reads this
    {
      dequeueOvercommit == old(dequeueOvercommit) && refused == old(refused)
    }

    /** An allocation succeeded, or was refused. */
    twostate predicate Memory(ok: bool)
      reads this
    {
      dequeueOvercommit == old(dequeueOvercommit) && refused == old(refused) + if ok then 0 else 1
    }

    /** n more elements would make the sub-queue span half the index range. */
    ghost predicate Crowded(n: nat)
      reads this
    {
      BLOCK_SIZE * BlocksFor(tailIndex + n) - headIndex >= HALF
    }

    /** A call that adds n elements fails only for want of memory or of room. */
    twostate predicate FailsFor(ok: bool, n: nat)
      reads this
    {
      && refused >= old(refused)
      && (ok ==> refused == old(refused))
      && (ok && n > 0 ==> indexed)
      && (!ok && refused == old(refused) ==> old(Crowded(n)) || !indexed)
    }

    /** The fields are what the model says. */
    ghost predicate Matches()
      reads this, index
    {
      && tailIndex == model.tail && headIndex == model.head && tailBlock == model.tailBlock
      && model.headers != []
      && capacity == Last(model.headers).capacity && indexTail == Last(model.headers).tail && index[..] == Last(model.headers).index
      && keys == model.keys && values == model.values && blocks == model.blocks
    }

    /** In the middle of a call. */
    ghost predicate Working()
      reads this, index
    {
      && indexed && Matches() && Sized(model) && R.Inv(model)
      && dequeueOptimisticCount == headIndex + dequeueOvercommit
    }

    /** The tail of the block index is the slot of the last block of the queue. */
    ghost predicate TailInPlace()
      reads this
    {
      indexTail == Slot(Last(model.headers), BlocksFor(tailIndex) - 1)
    }

    ghost predicate Valid()
      reads this, index
    {
      && model.head <= |model.enqueued| && headIndex == model.head && tailIndex == model.tail
      && if indexed then
           Working() && model.producer == Resting && model.consumers == [Idle] && TailInPlace()
         else
           && tailIndex == headIndex == dequeueOptimisticCount == dequeueOvercommit == 0
           && blocks == map[] && model.enqueued == []
    }

    /** The elements in the queue, oldest first. */
    ghost function Contents(): seq<Value>
      reads this
    {
      if model.head <= |model.enqueued| then model.enqueued[model.head..] else []
    }

    /** What happens elsewhere does not matter. */
    twostate lemma StaysValid()
      requires old(Valid()) && unchanged(this) && unchanged(index)
      ensures Valid() && Contents() == old(Contents())
    {
      hide R.Inv;
    }

    /** The block index may be refused its memory; nobody is told, and it is never tried again. */
    constructor ()
      ensures Valid() && Contents() == [] && fresh(index) && refused == if indexed then 0 else 1
    {
      var memory: bool := *;
      indexed, refused := memory, if memory then 0 else 1;
      tailIndex, headIndex, dequeueOptimisticCount, dequeueOvercommit, tailBlock := 0, 0, 0, 0, 0;
      var size: nat := if memory then BLOCK_SIZE else 0;
      capacity, indexTail := size, if memory then BLOCK_SIZE - 1 else 0;
      index := new nat[size](j requires 0 <= j => j);
      keys, values, blocks := seq(size, _ => INVALID_BLOCK_BASE), seq(size, _ => None), map[];
      model := NewModel();
      new;
      NewModelIsOk();
    }

    // -------------------------------------------------------------- the block index

    method StoreKeyAndTail(x: nat) returns (e: nat)
      requires Working() && model.producer.StoringKey? && x == NextBlock(model, model.producer.got)
      modifies this
      ensures Working() && index == old(index) && capacity == old(capacity)
      ensures RingOnly(old(model), model) && SameRing(old(model), model)
      ensures model.producer == Requisitioning(old(model).producer.vals, old(model).producer.got, e)
      ensures Untouched()
    {
      hide R.Inv;
      var newTail := (indexTail + 1) % capacity;
      e := index[newTail];
      keys := keys[e := Base(x)];
      R.StoreKeyKeeps(model);
      model := DoStoreKey(model);
      R.AccessesAreSafe(model);
      indexTail := newTail;
      R.StoreTailKeeps(model);
      model := DoStoreTail(model);
      R.AccessesAreSafe(model);
    }

    /** Doubles the ring: the old entries in order from just past the tail, then as many new ones. */
    method NewBlockIndex() returns (ok: bool)
      requires Working() && model.producer.Growing?
      modifies this
      ensures Working() && RingOnly(old(model), model) && Memory(ok)
      ensures ok ==> model.producer == StoringKey(old(model).producer.vals, old(model).producer.got) && fresh(index)
      ensures !ok ==> model == old(model).(producer := Undoing(old(model).producer.got, 0)) && index == old(index)
    {
      hide R.Inv, Grown, DoGrow;
      ok := *;
      GrowFails(model);
      if !ok || 2 * capacity * BLOCK_SIZE > HALF {
        ok := false;
        R.GrowKeeps(model, false, []);
        model := DoGrow(model, false, []);
        R.AccessesAreSafe(model);
        refused := refused + 1;
        return;
      }
      var larger := CopyRotated(|keys|);
      Install(larger);
    }

    /** The new header and its entries, published. */
    method Install(larger: array<nat>)
      requires Working() && model.producer.Growing? && 2 * capacity * BLOCK_SIZE <= HALF && larger.Length == 2 * capacity
      requires capacity == index.Length && forall j :: 0 <= j < capacity ==> larger[j] == index[(indexTail + 1 + j) % capacity]
      requires forall j :: capacity <= j < 2 * capacity ==> larger[j] == |keys| + j - capacity
      modifies this
      ensures Working() && RingOnly(old(model), model) && Untouched()
      ensures model.producer == StoringKey(old(model).producer.vals, old(model).producer.got) && index == larger
    {
      hide R.Inv, Grown, DoGrow;
      ghost var h := Last(model.headers);
      var junk: seq<Option<BlockId>> := seq(capacity, _ => None);
      GrownIs(h, NextBlock(model, model.producer.got) - 1, |keys|, larger[..]);
      GrowEffect(model, junk);
      R.GrowKeeps(model, true, junk);
      model := DoGrow(model, true, junk);
      R.AccessesAreSafe(model);
      keys := keys + seq(capacity, _ => INVALID_BLOCK_BASE);
      values := values + junk;
      index, indexTail, capacity := larger, capacity - 1, 2 * capacity;
    }

    /** The loops of new_block_index. */
    method CopyRotated(firstNew: nat) returns (larger: array<nat>)
      requires 0 < capacity == index.Length && indexTail < capacity
      ensures fresh(larger) && larger.Length == 2 * capacity
      ensures forall j :: 0 <= j < capacity ==> larger[j] == index[(indexTail + 1 + j) % capacity]
      ensures forall j :: capacity <= j < 2 * capacity ==> larger[j] == firstNew + j - capacity
    {
      larger := new nat[2 * capacity];
      var pos, i := indexTail, 0;
      SmallMod(indexTail, capacity);
      ModPlusOnce(indexTail, capacity);
      while i == 0 || pos != indexTail
        invariant i <= capacity && pos == (indexTail + i) % capacity < capacity
        invariant forall j :: 0 <= j < i ==> larger[j] == index[(indexTail + 1 + j) % capacity]
        decreases capacity - i
      {
        ModSum(indexTail + i, 1, capacity);
        pos := (pos + 1) % capacity;
        larger[i] := index[pos];
        i := i + 1;
      }
      if i < capacity {
        ModUnique(indexTail + i, indexTail, capacity);
      }
      for k := 0 to capacity
        invariant forall j :: 0 <= j < capacity ==> larger[j] == index[(indexTail + 1 + j) % capacity]
        invariant forall j :: capacity <= j < capacity + k ==> larger[j] == firstNew + j - capacity
      {
        larger[capacity + k] := firstNew + k;
      }
    }

    /** insert_block_index_entry: false when there is no room and no memory for a larger ring. */
    method InsertBlockIndexEntry(x: nat) returns (ok: bool, e: nat)
      requires Working() && model.producer.Probing? && x == NextBlock(model, model.producer.got)
      modifies this
      ensures Working() && RingOnly(old(model), model) && Memory(ok)
      ensures ok ==> model.producer == Requisitioning(old(model).producer.vals, old(model).producer.got, e)
      ensures ok ==> (index == old(index) && SameRing(old(model), model)) || fresh(index)
      ensures !ok ==> model == old(model).(producer := Undoing(old(model).producer.got, 0)) && index == old(index)
    {
      hide R.Inv, DoGrow, DoStoreKey, DoStoreTail;
      var newTail := (indexTail + 1) % capacity;
      e := index[newTail];
      R.ProbeKeeps(model);
      model := DoProbe(model);
      R.AccessesAreSafe(model);
      ok := true;
      if !(keys[e] == INVALID_BLOCK_BASE || values[e] == None) {
        ok := NewBlockIndex();
      }
      if ok {
        e := StoreKeyAndTail(x);
      }
    }

    /** rewind_block_index_tail after the last block added could not be had. */
    method RewindLast(e: nat)
      requires Working() && model.producer.Rewinding? && e == model.producer.entry
      modifies this
      ensures Working() && RingOnly(old(model), model) && Untouched() && index == old(index)
      ensures SameRing(old(model), model)
      ensures model.producer == Undoing(old(model).producer.got, 0)
    {
      hide R.Inv;
      indexTail := (indexTail - 1) % capacity;
      R.RewindKeeps(model);
      model := DoRewind(model);
      R.AccessesAreSafe(model);
      values := values[e := None];
      R.NullKeeps(model);
      model := DoNull(model);
      R.AccessesAreSafe(model);
    }

    // -------------------------------------------------------------- blocks

    /** requisition_block: a block nobody uses, or none. */
    method RequisitionBlock() returns (b: Option<BlockId>)
      modifies this`refused
      ensures Memory(b.Some?) && (b.Some? ==> b.value !in blocks)
    {
      var ok: bool := *;
      if !ok {
        refused := refused + 1;
        return None;
      }
      UnusedExists(blocks.Keys);
      var id: BlockId :| id !in blocks;
      return Some(id);
    }

    /** Takes a block for the entry e and links it there. */
    method AddBlock(e: nat) returns (b: Option<BlockId>)
      requires Working() && model.producer.Requisitioning? && e == model.producer.entry
      modifies this
      ensures Working() && SameElements(old(model), model) && index == old(index) && Memory(b.Some?)
      ensures SameRing(old(model), model)
      ensures b.None? ==> model == old(model).(producer := Rewinding(old(model).producer.got, e))
      ensures b.Some? ==>
                && b.value !in old(blocks) && With(blocks, old(blocks), [b.value])
                && model.producer == Checking(old(model).producer.vals, old(model).producer.got + [b.value])
    {
      hide R.Inv;
      b := RequisitionBlock();
      if b.Some? {
        LinkBlock(e, b.value);
      } else {
        R.RequisitionKeeps(model, false, 0, []);
        model := DoRequisition(model, false, 0, []);
        R.AccessesAreSafe(model);
      }
    }

    /** The new block, emptied and entered in the ring. */
    method LinkBlock(e: nat, id: BlockId)
      requires Working() && model.producer.Requisitioning? && e == model.producer.entry && id !in blocks
      modifies this
      ensures Working() && SameElements(old(model), model) && index == old(index) && Untouched()
      ensures SameRing(old(model), model) && With(blocks, old(blocks), [id])
      ensures model.producer == Checking(old(model).producer.vals, old(model).producer.got + [id])
    {
      hide R.Inv;
      var cells: seq<Option<Value>> := seq(BLOCK_SIZE, _ => None);
      R.RequisitionKeeps(model, true, id, cells);
      model := DoRequisition(model, true, id, cells);
      R.AccessesAreSafe(model);
      blocks := blocks[id := Block(0, cells)];
      values := values[e := Some(id)];
      R.LinkKeeps(model);
      model := DoLink(model);
      R.AccessesAreSafe(model);
    }

    /** The recovery loop of enqueue_bulk: clears the entries, rewinds the tail, returns the blocks. */
    method Rollback(got: seq<BlockId>)
      requires Working() && model.producer == Undoing(got, 0)
      modifies this
      ensures Working() && SameElements(old(model), model) && model.producer == Resting && index == old(index)
      ensures SameRing(old(model), model)
      ensures Untouched() && blocks == old(blocks) - (set b <- got)
    {
      hide R.Inv, DoUndo;
      for k := 0 to |got|
        invariant Working() && SameElements(old(model), model) && model.producer == Undoing(got, k) && index == old(index)
        invariant SameRing(old(model), model)
        invariant Untouched() && blocks == old(blocks)
      {
        UndoOne(got, k);
      }
      R.UndoKeeps(model);
      UndoEnds(model, got);
      model := DoUndo(model);
      R.AccessesAreSafe(model);
      ReturnAll(got);
    }

    /** add_blocks_to_free_list */
    method ReturnAll(got: seq<BlockId>)
      requires Working() && model.producer == Returning(got)
      modifies this
      ensures Working() && SameElements(old(model), model) && model.producer == Resting && index == old(index)
      ensures SameRing(old(model), model)
      ensures Untouched() && blocks == old(blocks) - (set b <- got)
    {
      hide R.Inv, DoReturn;
      for k := 0 to |got|
        invariant Working() && SameElements(old(model), model) && model.producer == Returning(got[k..]) && index == old(index)
        invariant SameRing(old(model), model)
        invariant Untouched() && blocks == old(blocks) - (set b <- got[..k])
      {
        R.ReturnKeeps(model);
        ReturnEffect(model);
        assert got[k..][0] == got[k] && got[k..][1..] == got[k + 1..];
        assert got[..k + 1] == got[..k] + [got[k]];
        blocks := blocks - {got[k]};
        model := DoReturn(model);
        R.AccessesAreSafe(model);
      }
      R.ReturnKeeps(model);
      ReturnEffect(model);
      assert got[..|got|] == got;
      model := DoReturn(model);
      R.AccessesAreSafe(model);
    }

    method UndoOne(got: seq<BlockId>, k: nat)
      requires Working() && model.producer == Undoing(got, k) && k < |got|
      modifies this
      ensures Working() && SameElements(old(model), model) && model.producer == Undoing(got, k + 1) && index == old(index)
      ensures SameRing(old(model), model)
      ensures Untouched() && blocks == old(blocks)
    {
      hide R.Inv, SlotFor, LookupSlot;
      var b := BlocksFor(tailIndex) + k;
      UndoSlot(model);
      SlotForIs(model, b);
      var slot := LookupSlot(capacity, indexTail, keys[index[indexTail]], b * BLOCK_SIZE);
      values := values[index[slot] := None];
      R.UndoKeeps(model);
      model := DoUndo(model);
      R.AccessesAreSafe(model);
      indexTail := (indexTail - 1) % capacity;
      R.UndoRewindKeeps(model);
      model := DoUndoRewind(model);
      R.AccessesAreSafe(model);
    }

    // -------------------------------------------------------------- enqueue

    /** Constructs one element in its block. */
    method Construct(i: nat, block: BlockId, v: Value)
      requires Working() && model.producer.Filling? && model.producer.written < |model.producer.vals|
      requires i == model.tail + model.producer.written && v == model.producer.vals[model.producer.written]
      requires block == BlockOf(model, model.producer.got, i)
      modifies this
      ensures Working() && SameElements(old(model), model) && index == old(index) && Untouched()
      ensures model.producer == Filling(old(model).producer.vals, old(model).producer.got, old(model).producer.written + 1)
    {
      hide R.Inv, BlockOf, BlocksFor;
      FillBlock(model, i);
      R.FillKeeps(model);
      model := DoFill(model);
      R.AccessesAreSafe(model);
      blocks := blocks[block := blocks[block].(cells := blocks[block].cells[i % BLOCK_SIZE := Some(v)])];
    }

    method Publish(n: nat, block: BlockId)
      requires Working() && model.producer.Filling? && model.producer.written == |model.producer.vals| && model.consumers == [Idle]
      requires model.head <= |model.enqueued| && n == |model.producer.vals|
      requires block == if model.producer.got == [] then tailBlock else model.producer.got[|model.producer.got| - 1]
      modifies this
      ensures Valid() && Contents() == old(Contents()) + old(model).producer.vals
      ensures index == old(index) && headIndex == old(headIndex) && Untouched()
      ensures tailIndex == old(tailIndex) + |old(model).producer.vals|
    {
      hide R.Inv;
      R.PublishKeeps(model);
      tailBlock := block;
      tailIndex := tailIndex + n;
      model := DoFill(model);
      R.AccessesAreSafe(model);
      TailAtRest(model);
    }

    /** The first loop of enqueue_bulk: one block at a time, or none at all. */
    method AddBlocks(vals: seq<Value>) returns (r: Option<seq<BlockId>>)
      requires Working() && model.producer == Checking(vals, []) && vals != []
      modifies this
      ensures Working() && SameElements(old(model), model) && dequeueOvercommit == old(dequeueOvercommit)
      ensures FailsFor(r.Some?, |vals|)
      ensures r.Some? ==> model.producer == Filling(vals, r.value, 0)
      ensures r.None? ==> model.producer == Resting && blocks == old(blocks)
      ensures index == old(index) ==> SameRing(old(model), model)
      ensures index == old(index) || fresh(index)
    {
      hide R.Inv, DoCheck, BlocksFor, Full;
      var got := [];
      while BlocksFor(tailIndex) + |got| < BlocksFor(tailIndex + |vals|)
        invariant Working() && SameElements(old(model), model) && Untouched()
        invariant model.producer == Checking(vals, got) && With(blocks, old(blocks), got)
        invariant index == old(index) ==> SameRing(old(model), model)
        invariant index == old(index) || fresh(index)
        decreases BlocksFor(tailIndex + |vals|) - BlocksFor(tailIndex) - |got|
      {
        var b := AddOne(vals, got);
        if b.None? {
          assert b.None? && refused == old(refused) ==> old(Crowded(|vals|));
          WithMinus(blocks, old(blocks), got);
          Rollback(got);
          return None;
        }
        got := got + [b.value];
      }
      StartFill();
      return Some(got);
    }

    method StartFill()
      requires Working() && model.producer.Checking?
      requires BlocksFor(model.tail) + |model.producer.got| >= BlocksFor(model.tail + |model.producer.vals|)
      modifies this
      ensures Working() && SameElements(old(model), model) && Untouched()
      ensures model.producer == Filling(old(model).producer.vals, old(model).producer.got, 0) && index == old(index)
      ensures blocks == old(blocks) && SameRing(old(model), model)
    {
      hide R.Inv;
      R.CheckKeeps(model);
      model := DoCheck(model);
    }

    /** One block more; without one, everything is ready to be taken back. */
    method AddOne(vals: seq<Value>, got: seq<BlockId>) returns (b: Option<BlockId>)
      requires Working() && model.producer == Checking(vals, got) && BlocksFor(tailIndex) + |got| < BlocksFor(tailIndex + |vals|)
      modifies this
      ensures Working() && SameElements(old(model), model) && dequeueOvercommit == old(dequeueOvercommit)
      ensures FailsFor(b.Some?, |vals|)
      ensures b.None? ==> model.producer == Undoing(got, 0) && blocks == old(blocks)
      ensures b.Some? ==> model.producer == Checking(vals, got + [b.value]) && b.value !in old(blocks) && With(blocks, old(blocks), [b.value])
      ensures (index == old(index) && SameRing(old(model), model)) || fresh(index)
    {
      hide R.Inv, DoCheck, BlocksFor, Full;
      FullMeans(model);
      var x := BlocksFor(tailIndex) + |got|;
      CheckEffect(model);
      R.CheckKeeps(model);
      model := DoCheck(model);
      if Full(x, headIndex) {
        return None;
      }
      var ok, e := InsertBlockIndexEntry(x);
      if !ok {
        return None;
      }
      b := AddBlock(e);
      if b.None? {
        RewindLast(e);
      }
    }

    /** The second part of enqueue_bulk: block by block, the elements that go there. */
    method Fill(vals: seq<Value>, got: seq<BlockId>) returns (block: BlockId)
      requires Working() && model.producer == Filling(vals, got, 0) && vals != []
      modifies this
      ensures Working() && SameElements(old(model), model) && Untouched() && index == old(index)
      ensures model.producer == Filling(vals, got, |vals|)
      ensures block == if got == [] then tailBlock else got[|got| - 1]
    {
      hide R.Inv, BlockOf, With;
      FillCount(model);
      ghost var first := BlocksFor(tailIndex);
      var current, newTail := tailIndex, tailIndex + |vals|;
      var used := 0;
      block := tailBlock;
      if tailIndex % BLOCK_SIZE == 0 && got != [] {
        block, used := got[0], 1;
      }
      while true
        invariant Working() && SameElements(old(model), model) && Untouched() && index == old(index)
        invariant tailIndex <= current < newTail && model.producer == Filling(vals, got, current - tailIndex)
        invariant used <= |got|
        invariant first + used == current / BLOCK_SIZE + 1 && (used == 0 ==> tailIndex % BLOCK_SIZE != 0)
        invariant block == if used == 0 then tailBlock else got[used - 1]
        decreases |got| - used
      {
        var stop := StopOf(current, newTail);
        ghost var n := current / BLOCK_SIZE;
        while current != stop
          invariant Working() && SameElements(old(model), model) && Untouched() && index == old(index)
          invariant tailIndex <= current <= stop && model.producer == Filling(vals, got, current - tailIndex)
          invariant current != stop ==> current / BLOCK_SIZE == n
          decreases stop - current
        {
          BlockOfIs(model, got, used, current);
          Construct(current, block, vals[current - tailIndex]);
          current := current + 1;
        }
        if used == |got| {
          break;
        }
        block := got[used];
        used := used + 1;
      }
    }

    /** What a call that fails leaves behind: nothing. */
    twostate predicate Unchanged()
      reads this
    {
      && tailIndex == old(tailIndex) && headIndex == old(headIndex) && tailBlock == old(tailBlock)
      && blocks == old(blocks) && model.enqueued == old(model.enqueued)
      && (index == old(index) ==> indexTail == old(indexTail) && capacity == old(capacity))
    }

    /** enqueue_bulk: all the elements, or a failure (no memory, or half the index range in use) that leaves
        the contents, tailIndex, the tail of the block index and the blocks as they were. The ring may have
        been doubled all the same; its tail then is the slot that the last block has in the new one. */
    method EnqueueBulk(vals: seq<Value>) returns (ok: bool)
      requires Valid()
      modifies this
      ensures Valid()
      ensures index == old(index) || fresh(index)
      ensures FailsFor(ok, |vals|) && (ok ==> !old(Crowded(|vals|)))
      ensures ok ==> Contents() == old(Contents()) + vals && tailIndex == old(tailIndex) + |vals|
      ensures !ok ==> Contents() == old(Contents()) && Unchanged()
    {
      hide R.Inv, RingOnly;
      if indexed {
        HeadWithin(model);
      }
      if vals == [] {
        // No block is needed, no element constructed, and tailIndex is stored as it was.
        NoMore(tailIndex, headIndex);
        return true;
      }
      if !indexed {
        // insert_block_index_entry finds no index.
        return false;
      }
      TailAtRest(model);
      R.EnqueueKeeps(model, vals);
      model := model.(producer := Checking(vals, []));
      var got := AddBlocks(vals);
      HeadWithin(model);
      if got.None? {
        TailAtRest(model);
        if index == old(index) {
          SameTail(old(model), model);
        }
        return false;
      }
      var block := Fill(vals, got.value);
      HeadWithin(model);
      Publish(|vals|, block);
      HeadWithin(model);
      return true;
    }

    /** The block that enqueue adds when the tail is at the end of one. */
    method StartBlock(v: Value) returns (b: Option<BlockId>)
      requires Working() && model.producer == Checking([v], []) && BlocksFor(tailIndex) < BlocksFor(tailIndex + 1)
      requires TailInPlace() && model.consumers == [Idle] && model.head <= |model.enqueued|
      modifies this
      ensures Working() && SameElements(old(model), model) && dequeueOvercommit == old(dequeueOvercommit)
      ensures FailsFor(b.Some?, 1)
      ensures b.Some? ==> model.producer == Checking([v], [b.value])
      ensures b.None? ==> Valid() && Unchanged()
      ensures index == old(index) || fresh(index)
    {
      hide R.Inv, BlocksFor;
      ghost var none: seq<BlockId> := [];
      b := AddOne([v], []);
      if b.None? {
        Rollback([]);
        assert old(blocks) - (set x <- none) == old(blocks);
        TailAtRest(model);
        if index == old(index) {
          SameTail(old(model), model);
        }
      } else {
        assert none + [b.value] == [b.value];
      }
    }

    /** Constructs the element and publishes it. */
    method AddLast(v: Value, block: BlockId, ghost got: seq<BlockId>)
      requires Working() && model.producer == Checking([v], got) && model.consumers == [Idle] && model.head <= |model.enqueued|
      requires BlocksFor(tailIndex) + |got| == BlocksFor(tailIndex + 1) == tailIndex / BLOCK_SIZE + 1
      requires block == if got == [] then tailBlock else got[|got| - 1]
      modifies this
      ensures Valid() && Contents() == old(Contents()) + [v] && tailIndex == old(tailIndex) + 1
      ensures BLOCK_SIZE * BlocksFor(tailIndex) - headIndex < HALF
      ensures index == old(index) && headIndex == old(headIndex) && Untouched()
    {
      hide R.Inv, RingOnly, BlockOf, BlocksFor;
      StartFill();
      BlockOfIs(model, got, |got|, tailIndex);
      Construct(tailIndex, block, v);
      Publish(1, block);
      HeadWithin(model);
    }

    /** enqueue: as enqueue_bulk for one element, with a block added only at the end of one. */
    method Enqueue(v: Value) returns (ok: bool)
      requires Valid()
      modifies this
      ensures Valid()
      ensures index == old(index) || fresh(index)
      ensures FailsFor(ok, 1) && (ok ==> !old(Crowded(1)))
      ensures ok ==> Contents() == old(Contents()) + [v] && tailIndex == old(tailIndex) + 1
      ensures !ok ==> Contents() == old(Contents()) && Unchanged()
    {
      hide R.Inv, RingOnly, BlockOf, BlocksFor, SameRing;
      if !indexed {
        // insert_block_index_entry finds no index.
        return false;
      }
      HeadWithin(model);
      OneMore(tailIndex);
      R.EnqueueKeeps(model, [v]);
      model := model.(producer := Checking([v], []));
      var block := tailBlock;
      ghost var none: seq<BlockId> := [];
      ghost var got := none;
      if tailIndex % BLOCK_SIZE == 0 {
        var b := StartBlock(v);
        if b.None? {
          return false;
        }
        block, got := b.value, [b.value];
      }
      AddLast(v, block, got);
      return true;
    }

    // -------------------------------------------------------------- dequeue

    /** A claim has been admitted but headIndex has not moved yet. */
    ghost predicate Claiming(n: nat)
      reads this, index
    {
      && indexed && Matches() && Sized(model) && R.Inv(model) && model.producer == Resting && model.consumers == [Idle]
      && dequeueOptimisticCount == headIndex + dequeueOvercommit + n && 0 < n && model.head + n <= model.tail
    }

    /** Advances headIndex and looks the first block up. */
    method BeginClaim(n: nat) returns (slot: nat)
      requires Claiming(n)
      modifies this
      ensures Working() && headIndex == old(headIndex) + n && ConsumerOnly(old(model).(head := headIndex), model)
      ensures model.consumers == [AtSlot(old(headIndex), headIndex, |model.headers| - 1, slot)] && index == old(index)
      ensures Untouched()
    {
      hide R.Inv, LookupSlot;
      headIndex := headIndex + n;
      R.ClaimKeeps(model, 0, n);
      model := ConsumerStep(model, 0, n);
      R.AccessesAreSafe(model);
      slot := GetBlockIndexIndex(headIndex - n, headIndex);
    }

    /** get_block_index_index_for_index */
    method GetBlockIndexIndex(i: nat, ghost end: nat) returns (slot: nat)
      requires Working() && model.consumers == [Claimed(i, end)]
      modifies this`model
      ensures Working() && ConsumerOnly(old(model), model)
      ensures model.consumers == [AtSlot(i, end, |model.headers| - 1, slot)]
    {
      hide R.Inv, LookupSlot;
      R.HeaderKeeps(model, 0);
      model := ConsumerStep(model, 0, 0);
      R.AccessesAreSafe(model);
      R.TailKeeps(model, 0);
      model := ConsumerStep(model, 0, 0);
      R.AccessesAreSafe(model);
      slot := LookupSlot(capacity, indexTail, keys[index[indexTail]], i);
      R.LookupKeeps(model, 0);
      model := DoLookup(model, 0);
      R.AccessesAreSafe(model);
    }

    method LoadBlock(i: nat, ghost end: nat, slot: nat) returns (block: BlockId)
      requires Working() && model.consumers == [AtSlot(i, end, |model.headers| - 1, slot)]
      modifies this`model
      ensures Working() && ConsumerOnly(old(model), model) && i < end
      ensures model.consumers == [Reading(i, end, |model.headers| - 1, slot, block, i)]
    {
      hide R.Inv;
      R.AccessesAreSafe(model);
      R.SlotIsRight(model, 0);
      AtSlotShape(model, 0);
      R.LoadBlockKeeps(model, 0);
      block := values[index[slot]].value;
      model := DoLoadBlock(model, 0);
      R.AccessesAreSafe(model);
    }

    method ReadElement(i: nat, ghost end: nat, ghost slot: nat, block: BlockId, ghost start: nat) returns (v: Value)
      requires Working() && model.consumers == [Reading(i, end, |model.headers| - 1, slot, block, start)] && i < StopOf(start, end)
      modifies this
      ensures Working() && ConsumerOnly(old(model), model) && index == old(index) && Untouched()
      ensures model.consumers == [Reading(i + 1, end, |model.headers| - 1, slot, block, start)]
      ensures i < |model.enqueued| && v == model.enqueued[i]
    {
      hide R.Inv, StopOf;
      R.AccessesAreSafe(model);
      R.ReadIsRight(model, 0);
      R.ReadElementKeeps(model, 0);
      v := blocks[block].cells[i % BLOCK_SIZE].value;
      blocks := blocks[block := blocks[block].(cells := blocks[block].cells[i % BLOCK_SIZE := None])];
      model := DoRead(model, 0);
      R.AccessesAreSafe(model);
    }

    /** set_many_empty, and the release of the block if that was the last of it. */
    method CountPart(i: nat, end: nat, slot: nat, block: BlockId, start: nat)
      requires Working() && model.consumers == [Reading(i, end, |model.headers| - 1, slot, block, start)] && i >= StopOf(start, end)
      modifies this
      ensures Working() && ConsumerOnly(old(model), model) && index == old(index) && Untouched()
      ensures capacity == old(capacity) && capacity > 0
      ensures model.consumers == [if i >= end then Idle else AtSlot(i, end, |model.headers| - 1, (slot + 1) % capacity)]
    {
      hide R.Inv, StopOf;
      R.AccessesAreSafe(model);
      R.CountIsExact(model, 0);
      R.CountKeeps(model, 0);
      blocks := blocks[block := blocks[block].(completed := blocks[block].completed + (i - start))];
      model := DoRead(model, 0);
      R.AccessesAreSafe(model);
      if blocks[block].completed == BLOCK_SIZE {
        ReleaseBlock(i, end, slot, block);
      }
    }

    method ReleaseBlock(i: nat, ghost end: nat, slot: nat, block: BlockId)
      requires Working() && model.consumers == [Unlinking(i, end, |model.headers| - 1, slot, block)]
      modifies this
      ensures Working() && ConsumerOnly(old(model), model) && index == old(index) && Untouched()
      ensures capacity == old(capacity) && capacity > 0
      ensures model.consumers == [if i >= end then Idle else AtSlot(i, end, |model.headers| - 1, (slot + 1) % capacity)]
    {
      hide R.Inv;
      R.AccessesAreSafe(model);
      R.UnlinkKeeps(model, 0);
      values := values[index[slot] := None];
      model := DoUnlink(model, 0);
      R.AccessesAreSafe(model);
      R.FreeKeeps(model, 0);
      blocks := blocks - {block};
      model := DoFree(model, 0);
      R.AccessesAreSafe(model);
    }

    /** Takes the n elements at the head, block by block. */
    method TakeClaim(n: nat) returns (out: seq<Value>)
      requires Claiming(n)
      modifies this
      ensures Valid() && index == old(index) && headIndex == old(headIndex) + n && model.enqueued == old(model).enqueued
      ensures out == model.enqueued[old(headIndex)..headIndex]
    {
      hide R.Inv, StopOf;
      HeadWithin(model);
      var i := headIndex;
      var slot: nat := BeginClaim(n);
      var end := headIndex;
      ghost var m := model;
      out := [];
      while true
        invariant Working() && ConsumerOnly(m, model) && index == old(index) && headIndex == end
        invariant old(headIndex) <= i < end && model.consumers == [AtSlot(i, end, |model.headers| - 1, slot)]
        invariant out == m.enqueued[old(headIndex)..i]
        decreases end - i
      {
        var block := LoadBlock(i, end, slot);
        var start, stop := i, StopOf(i, end);
        StopBounds(i, end);
        while i != stop
          invariant Working() && ConsumerOnly(m, model) && index == old(index) && headIndex == end
          invariant start <= i <= stop <= end && model.consumers == [Reading(i, end, |model.headers| - 1, slot, block, start)]
          invariant out == m.enqueued[old(headIndex)..i]
          decreases stop - i
        {
          var v := ReadElement(i, end, slot, block, start);
          out := out + [v];
          i := i + 1;
        }
        CountPart(i, end, slot, block, start);
        slot := (slot + 1) % capacity;
        if i == end {
          break;
        }
      }
      TailAtRest(model);
    }

    /** dequeue: the oldest element, or nothing if there is none. */
    method Dequeue() returns (r: Option<Value>)
      requires Valid()
      modifies this
      ensures Valid() && index == old(index)
      ensures old(Contents()) == [] ==> r == None && Contents() == []
      ensures old(Contents()) != [] ==> r == Some(old(Contents())[0]) && Contents() == old(Contents())[1..]
    {
      hide R.Inv, T.SingleCheck;
      if indexed {
        HeadWithin(model);
        BelowHalf(model);
      }
      CheckIsExact(tailIndex, headIndex, dequeueOvercommit);
      var overcommit := dequeueOvercommit;
      if T.SingleCheck(tailIndex, dequeueOptimisticCount, overcommit) {
        var my := dequeueOptimisticCount;
        dequeueOptimisticCount := dequeueOptimisticCount + 1;
        if T.SingleCheck(tailIndex, my, overcommit) {
          var out := TakeClaim(1);
          return Some(out[0]);
        } else {
          // Refunding the ticket: without other consumers it always counts.
          assert false;
        }
      }
      return None;
    }

    /** dequeue_bulk: the oldest elements, as many as there are up to max. */
    method DequeueBulk(max: nat) returns (out: seq<Value>)
      requires Valid()
      modifies this
      ensures Valid() && index == old(index)
      ensures |out| == Min(max, |old(Contents())|)
      ensures old(Contents()) == out + Contents()
    {
      hide R.Inv, T.Available;
      if indexed {
        HeadWithin(model);
        BelowHalf(model);
      }
      T.AvailableIsExact(tailIndex, headIndex, dequeueOvercommit);
      out := [];
      var overcommit := dequeueOvercommit;
      var desired: nat := T.Available(tailIndex, dequeueOptimisticCount, overcommit);
      if Less(0, desired) {
        desired := Min(desired, max);
        var my := dequeueOptimisticCount;
        dequeueOptimisticCount := dequeueOptimisticCount + desired;
        var actual: nat := T.Available(tailIndex, my, overcommit);
        if Less(0, actual) {
          actual := Min(desired, actual);
          if actual < desired {
            // Refunding a part of the ticket: without other consumers it counts in full.
            assert false;
          }
          // A claim of no elements looks at the first block and leaves everything as it is.
          if actual > 0 {
            out := TakeClaim(actual);
          }
        } else {
          assert false;
        }
      }
    }
  }

  /** The elements waiting never reach half the index range, so the modular comparisons are right. */
  lemma BelowHalf(m: State)
    requires R.Inv(m) && m.producer == Resting
    ensures m.head <= m.tail < m.head + HALF
  {
    HeadWithin(m);
    R.BlocksForBounds(m.tail);
  }

  lemma CheckIsExact(tail: nat, head: nat, oc: nat)
    requires head <= tail < head + HALF
    ensures T.SingleCheck(tail, head + oc, oc) <==> head < tail
  {
    T.AvailableIsExact(tail, head, oc);
    T.SingleIsBulkOfOne(tail, head + oc, oc);
  }

  lemma UnusedExists(ids: set<BlockId>)
    ensures exists id: BlockId :: id !in ids
  {
    if ids == {} {
      assert 0 !in ids;
    } else {
      var top := Largest(ids);
      assert top + 1 !in ids;
    }
  }

  lemma {:induction false} Largest(ids: set<BlockId>) returns (top: BlockId)
    requires ids != {}
    ensures forall id <- ids :: id <= top
  {
    var x :| x in ids;
    top := x;
    if ids != {x} {
      var rest := Largest(ids - {x});
      top := if rest > x then rest else x;
      assert forall id <- ids :: id == x || id in ids - {x};
    }
  }

  lemma UndoSlot(m: State)
    requires Sized(m) && m.producer.Undoing? && m.producer.undone < |m.producer.got| && R.Inv(m)
    ensures SlotFor(m, BlocksFor(m.tail) + m.producer.undone) < |Current(m).index|
  {
    hide R.OwnerInv, R.ConsumerInv, R.ContentInv, R.ProducerOk, R.IndexInv, SlotFor, BlocksFor;
    R.UndoLands(m);
    assert Last(m.headers) == Current(m);
  }

  lemma SlotForIs(m: State, b: nat)
    requires Sized(m)
    ensures SlotFor(m, b) == LookupSlot(Current(m).capacity, Current(m).tail, m.keys[Current(m).index[Current(m).tail]], b * BLOCK_SIZE)
  {
  }

  lemma UndoEnds(m: State, got: seq<BlockId>)
    requires Sized(m) && m.producer == Undoing(got, |got|)
    ensures DoUndo(m) == m.(producer := Returning(got))
  {
  }

  lemma ReturnEffect(m: State)
    requires m.producer.Returning?
    ensures m.producer.got == [] ==> DoReturn(m) == m.(producer := Resting)
    ensures m.producer.got != [] ==>
              DoReturn(m) == m.(blocks := m.blocks - {m.producer.got[0]}, producer := Returning(m.producer.got[1..]))
  {
  }

  lemma HeadWithin(m: State)
    requires R.Inv(m)
    ensures m.head <= m.tail == |m.enqueued| && BLOCK_SIZE * R.BudgetOf(m.producer, BlocksFor(m.tail)) - m.head < HALF
  {
    hide R.IndexInv, R.OwnerInv, R.ConsumerInv, R.ContentInv, R.ProducerOk;
  }

  /** Between calls the tail slot is that of the last block of the queue. */
  lemma TailAtRest(m: State)
    requires R.Inv(m) && m.producer == Resting
    ensures Last(m.headers).tail == Slot(Last(m.headers), BlocksFor(m.tail) - 1)
  {
    hide R.OwnerInv, R.ConsumerInv, R.ContentInv, R.ProducerOk, R.Room, Values, Shape, Keys, AllKnow, BlocksFor, Slot, Floor;
  }

  lemma SameTail(m: State, m2: State)
    requires SameRing(m, m2) && m.tail == m2.tail
    ensures Slot(Last(m.headers), BlocksFor(m.tail) - 1) == Slot(Last(m2.headers), BlocksFor(m2.tail) - 1)
  {
  }

  lemma NoMore(tail: nat, head: nat)
    ensures BlocksFor(tail + 0) == BlocksFor(tail)
    ensures tail == head == 0 ==> BLOCK_SIZE * BlocksFor(tail) - head < HALF
  {
  }

  lemma OneMore(tail: nat)
    ensures tail % BLOCK_SIZE == 0 ==> BlocksFor(tail) == tail / BLOCK_SIZE && BlocksFor(tail + 1) == BlocksFor(tail) + 1
    ensures tail % BLOCK_SIZE != 0 ==> BlocksFor(tail) == tail / BLOCK_SIZE + 1 == BlocksFor(tail + 1)
  {
  }

  lemma StopBounds(i: nat, end: nat)
    requires i < end
    ensures i < StopOf(i, end) <= end
  {
  }

  lemma AtSlotShape(m: State, c: nat)
    requires R.Inv(m) && c < |m.consumers| && m.consumers[c].AtSlot?
    ensures m.consumers[c].pos < m.consumers[c].end
  {
    hide R.IndexInv, R.OwnerInv, R.ContentInv, R.ProducerOk, R.Room, Looks, BlocksOk, Released, Disjoint;
    assert ConsumerShape(m.consumers[c]);
  }

  /** The check for room refuses when the blocks still wanted would span half the index range. */
  lemma FullMeans(m: State)
    requires R.Inv(m) && m.producer.Checking?
    requires NextBlock(m, m.producer.got) < BlocksFor(m.tail + |m.producer.vals|)
    ensures Full(NextBlock(m, m.producer.got), m.head) ==> BLOCK_SIZE * BlocksFor(m.tail + |m.producer.vals|) - m.head >= HALF
  {
    hide R.Inv, BlocksFor, Full;
    HeadWithin(m);
    R.BlocksForBounds(m.tail);
    R.FullIff(NextBlock(m, m.producer.got), m.head);
  }

  lemma WithMinus(blocks: map<BlockId, Block>, old_: map<BlockId, Block>, got: seq<BlockId>)
    requires With(blocks, old_, got)
    ensures blocks - (set b <- got) == old_
  {
  }

  lemma CheckEffect(m: State)
    requires m.producer.Checking?
    requires BlocksFor(m.tail) + |m.producer.got| < BlocksFor(m.tail + |m.producer.vals|)
    ensures DoCheck(m) == m.(producer := if Full(NextBlock(m, m.producer.got), m.head) then Undoing(m.producer.got, 0)
                                         else Probing(m.producer.vals, m.producer.got))
  {
  }

  lemma FillCount(m: State)
    requires R.Inv(m) && m.producer.Filling?
    ensures BlocksFor(m.tail) + |m.producer.got| == BlocksFor(m.tail + |m.producer.vals|)
  {
    hide R.IndexInv, R.OwnerInv, R.ConsumerInv, R.ContentInv, R.Room, BlocksFor;
  }

  lemma BlockOfIs(m: State, got: seq<BlockId>, used: nat, i: nat)
    requires used <= |got| && BlocksFor(m.tail) + used == i / BLOCK_SIZE + 1
    ensures BlockOf(m, got, i) == if used == 0 then m.tailBlock else got[used - 1]
  {
  }

  /** The block an element is constructed in is there, with a cell for it. */
  lemma FillBlock(m: State, i: nat)
    requires R.Inv(m) && m.producer.Filling? && m.producer.written < |m.producer.vals| && i == m.tail + m.producer.written
    ensures var b := BlockOf(m, m.producer.got, i);
            b in m.blocks && |m.blocks[b].cells| == BLOCK_SIZE
  {
    hide Ring, Values, Accounted, Claims, Looks, BlocksOk, Released, Counts, Data, Reads, BlocksFor, R.Linked, BlockOf, FreeOf, R.Filled;
    R.BlockOfIsHeld(m, m.producer.vals, m.producer.got, i);
  }

  lemma GrowFails(m: State)
    requires Sized(m) && m.producer.Growing?
    ensures DoGrow(m, false, []) == m.(producer := Undoing(m.producer.got, 0))
  {
  }

  lemma GrowEffect(m: State, junk: seq<Option<BlockId>>)
    requires Sized(m) && m.producer.Growing?
    ensures var m2, h := DoGrow(m, true, junk), Last(m.headers);
            && RingOnly(m, m2) && m2.producer == StoringKey(m.producer.vals, m.producer.got)
            && m2.headers != [] && Last(m2.headers) == Grown(h, NextBlock(m, m.producer.got) - 1, |m.keys|)
            && m2.keys == m.keys + seq(h.capacity, _ => INVALID_BLOCK_BASE) && m2.values == m.values + junk
  {
    hide Grown;
  }

  lemma GrownIs(h: Header, tailBlock: int, firstNew: nat, larger: seq<nat>)
    requires 0 < h.capacity == |h.index| == |larger| / 2 && |larger| % 2 == 0
    requires forall j :: 0 <= j < h.capacity ==> larger[j] == h.index[(h.tail + 1 + j) % h.capacity]
    requires forall j :: h.capacity <= j < 2 * h.capacity ==> larger[j] == firstNew + j - h.capacity
    ensures var g := Grown(h, tailBlock, firstNew);
            g.index == larger && g.tail == h.capacity - 1 && g.capacity == 2 * h.capacity
  {
  }
}
