/** What comes of a call on the block ring: every call ends after a bounded number of its own operations, and an
    enqueue ends with its elements published or for one of two reasons not to. */
module RingProgress {
  import opened Wrappers
  import opened Words
  import opened BlockRing
  import opened RingBlocks
  import opened RingRun
  import S = Subqueue

  // ---------------------------------------------------------------- how much is left to do

  /** More than the number of operations that a consumer needs until it is idle again. */
  function ConsumerWork(c: Consumer): nat {
    match c
    case Idle => 0
    case Claimed(i, end) => 8 * Left(i, end) + 8
    case HasHeader(i, end, _) => 8 * Left(i, end) + 7
    case HasTail(i, end, _, _) => 8 * Left(i, end) + 6
    case AtSlot(i, end, _, _) => 8 * Left(i, end) + 5
    case Reading(i, end, _, _, _, start) => 8 * Left(i, end) + if i == start then 4 else 8
    case Unlinking(i, end, _, _, _) => 8 * Left(i, end) + 7
    case Freeing(i, end, _, _, _) => 8 * Left(i, end) + 6
    case NullPointer => 0
  }

  function Left(i: nat, end: nat): nat {
    if i < end then end - i else 0
  }

  /** The blocks that a running enqueue still has to add. */
  function BlocksLeft(tail: nat, vals: seq<Value>, got: seq<BlockId>): nat {
    Left(BlocksFor(tail) + |got|, BlocksFor(tail + |vals|))
  }

  function UndoWork(got: seq<BlockId>, undone: nat): nat {
    2 * Left(undone, |got|) + |got| + 2
  }

  function AddWork(tail: nat, vals: seq<Value>, got: seq<BlockId>): nat {
    12 * BlocksLeft(tail, vals, got) + 3 * |got| + |vals| + 5
  }

  /** More than the number of operations that the producer needs until it is resting again. */
  function ProducerWork(s: State): nat {
    match s.producer
    case Resting => 0
    case Checking(vals, got) => AddWork(s.tail, vals, got)
    case Probing(vals, got) => AddWork(s.tail, vals, got) - 1
    case Growing(vals, got) => AddWork(s.tail, vals, got) - 2
    case StoringKey(vals, got) => AddWork(s.tail, vals, got) - 3
    case StoringTail(vals, got, _) => AddWork(s.tail, vals, got) - 4
    case Requisitioning(vals, got, _) => AddWork(s.tail, vals, got) - 5
    case Linking(vals, got, _, _) => if AddWork(s.tail, vals, got) < 6 then 0 else AddWork(s.tail, vals, got) - 6
    case Filling(vals, got, n) => Left(n, |vals|) + 1
    case Rewinding(got, _) => UndoWork(got, 0) + 2
    case Nulling(got, _) => UndoWork(got, 0) + 1
    case Undoing(got, k) => UndoWork(got, k)
    case UndoRewinding(got, k) => if UndoWork(got, k) == 0 then 0 else UndoWork(got, k) - 1
    case Returning(got) => |got| + 1
  }

  lemma ConsumerProgress(s: State, c: nat, n: nat)
    requires Inv(s) && c < |s.consumers| && CanConsume(s, c) && !s.consumers[c].Idle?
    ensures c < |ConsumerStep(s, c, n).consumers|
    ensures ConsumerWork(ConsumerStep(s, c, n).consumers[c]) < ConsumerWork(s.consumers[c])
  {
    hide Inv, Sized, LookupSlot, Write, Counted, CellOf, Span, ConsumerInv;
    ConsumerIsWell(s, c);
    match s.consumers[c]
    case AtSlot(_, _, _, _) => FoundBlock(s, c);
    case Reading(_, _, _, _, _, _) => ReadProgress(s, c);
    case _ =>
  }

  lemma ConsumerIsWell(s: State, c: nat)
    requires Inv(s) && c < |s.consumers|
    ensures ConsumerShape(s.consumers[c])
  {
    hide IndexInv, OwnerInv, ConsumerInv, ContentInv, ProducerOk, Room;
    ShapesOf(s, c);
  }

  lemma FoundBlock(s: State, c: nat)
    requires Inv(s) && c < |s.consumers| && s.consumers[c].AtSlot? && CanConsume(s, c)
    ensures DoLoadBlock(s, c).consumers[c].Reading? && DoLoadBlock(s, c).consumers[c].pos == s.consumers[c].pos
    ensures DoLoadBlock(s, c).consumers[c].end == s.consumers[c].end && DoLoadBlock(s, c).consumers[c].start == s.consumers[c].pos
  {
    hide Inv, Sized;
    SlotIsRight(s, c) by { AccessesAreSafe(s); }
  }

  lemma ReadProgress(s: State, c: nat)
    requires c < |s.consumers| && s.consumers[c].Reading? && CanConsume(s, c) && ConsumerShape(s.consumers[c])
    ensures c < |DoRead(s, c).consumers| && ConsumerWork(DoRead(s, c).consumers[c]) < ConsumerWork(s.consumers[c])
  {
    hide Sized, Write, Counted, CellOf, Span;
  }

  lemma ProducerProgress(s: State, e: Event)
    requires Inv(s) && Enabled(s, e) && e.Produce?
    ensures ProducerWork(ProducerStep(s, e)) < ProducerWork(s)
  {
    hide Inv, ProducerWork, WellUnderWay, CanProduce, Sized, DoCheck, DoProbe, DoGrow, DoStoreKey, DoStoreTail, DoRequisition,
         DoLink, DoFill, DoRewind, DoNull, DoUndo, DoUndoRewind, DoReturn;
    ProducerIsWell(s);
    NotResting(s, e);
    if s.producer.Checking? || s.producer.Linking? || s.producer.Requisitioning? {
      AddProgress(s, e);
    } else if s.producer.Probing? || s.producer.Growing? || s.producer.StoringKey? || s.producer.StoringTail? {
      IndexProgress(s, e);
    } else {
      EndProgress(s);
    }
  }

  lemma AddProgress(s: State, e: Event)
    requires e.Produce? && WellUnderWay(s)
    ensures s.producer.Checking? ==> ProducerWork(DoCheck(s)) < ProducerWork(s)
    ensures s.producer.Requisitioning? ==> ProducerWork(DoRequisition(s, e.ok, e.block, e.cells)) < ProducerWork(s)
    ensures s.producer.Linking? && s.producer.entry < |s.values| ==> ProducerWork(DoLink(s)) < ProducerWork(s)
  {
    hide Full, BlocksFor;
  }

  lemma IndexProgress(s: State, e: Event)
    requires e.Produce? && WellUnderWay(s) && Sized(s)
    ensures s.producer.Probing? ==> ProducerWork(DoProbe(s)) < ProducerWork(s)
    ensures s.producer.Growing? ==> ProducerWork(DoGrow(s, e.ok, e.junk)) < ProducerWork(s)
    ensures s.producer.StoringKey? ==> ProducerWork(DoStoreKey(s)) < ProducerWork(s)
    ensures s.producer.StoringTail? ==> ProducerWork(DoStoreTail(s)) < ProducerWork(s)
  {
    hide Sized, Grown, BlocksFor;
  }

  lemma EndProgress(s: State)
    requires WellUnderWay(s) && Sized(s)
    ensures s.producer.Filling? ==> ProducerWork(DoFill(s)) < ProducerWork(s)
    ensures s.producer.Rewinding? ==> ProducerWork(DoRewind(s)) < ProducerWork(s)
    ensures s.producer.Nulling? && s.producer.entry < |s.values| ==> ProducerWork(DoNull(s)) < ProducerWork(s)
    ensures s.producer.Undoing? ==> ProducerWork(DoUndo(s)) < ProducerWork(s)
    ensures s.producer.UndoRewinding? ==> ProducerWork(DoUndoRewind(s)) < ProducerWork(s)
    ensures s.producer.Returning? ==> ProducerWork(DoReturn(s)) < ProducerWork(s)
  {
    hide Sized, SlotFor, Write, BlockOf, BlocksFor;
  }

  lemma NotResting(s: State, e: Event)
    requires e.Produce? && CanProduce(s, e)
    ensures !s.producer.Resting?
  {
  }

  /** What is known of a call in progress: how many blocks it may have, and that it does not write past its end. */
  ghost predicate WellUnderWay(s: State) {
    match s.producer
    case Checking(vals, got) => BlocksFor(s.tail) + |got| <= BlocksFor(s.tail + |vals|)
    case Filling(vals, got, n) => n <= |vals|
    case Undoing(got, k) => k <= |got|
    case UndoRewinding(got, k) => k < |got|
    case Rewinding(_, _) => true
    case Nulling(_, _) => true
    case Returning(_) => true
    case Resting => true
    case _ => BlocksFor(s.tail) + |s.producer.got| < BlocksFor(s.tail + |s.producer.vals|)
  }

  lemma ProducerIsWell(s: State)
    requires Inv(s)
    ensures WellUnderWay(s)
  {
    hide IndexInv, OwnerInv, ConsumerInv, ContentInv, Room, BlocksFor, Linked, AtEntry, InCell, Find;
  }

  // ---------------------------------------------------------------- every call ends

  /** How many of the events from number i up to number j are operations of consumer c, or of the producer. */
  ghost function OperationsOf(es: seq<Event>, i: nat, j: nat, c: nat): nat
    requires i <= j <= |es|
  {
    if i == j then 0 else OperationsOf(es, i, j - 1, c) + if es[j - 1].Consume? && es[j - 1].c == c then 1 else 0
  }

  ghost function ProducerOperations(es: seq<Event>, i: nat, j: nat): nat
    requires i <= j <= |es|
  {
    if i == j then 0 else ProducerOperations(es, i, j - 1) + if es[j - 1].Produce? then 1 else 0
  }

  lemma {:induction false} ConsumerEnds(ws: seq<State>, es: seq<Event>, i: nat, j: nat, c: nat)
    requires IsRun(ws, es) && i <= j < |ws| && j <= |es|
    requires forall x :: i <= x <= j ==> c < |ws[x].consumers| && !ws[x].consumers[c].Idle?
    ensures OperationsOf(es, i, j, c) + ConsumerWork(ws[j].consumers[c]) <= ConsumerWork(ws[i].consumers[c])
    decreases j
  {
    hide IsRun, Step, Enabled, Inv, ConsumerStep, ConsumerWork, CanConsume;
    if i < j {
      ConsumerEnds(ws, es, i, j - 1, c);
      RunKeeps(ws, es, j - 1);
      Stepped(ws, es, j - 1);
      S.RingEffect(ws[j - 1], es[j - 1]);
      if es[j - 1].Consume? && es[j - 1].c == c {
        ConsumeStep(ws[j - 1], es[j - 1]);
        ConsumerProgress(ws[j - 1], c, es[j - 1].count);
      }
    }
  }

  lemma Stepped(ws: seq<State>, es: seq<Event>, i: nat)
    requires IsRun(ws, es) && i < |es|
    ensures i + 1 < |ws| && Enabled(ws[i], es[i]) && ws[i + 1] == Step(ws[i], es[i])
  {
    hide Step, Enabled, Init, ClaimCovered;
  }

  lemma ConsumeStep(s: State, e: Event)
    requires Enabled(s, e) && e.Consume?
    ensures e.c < |s.consumers| && CanConsume(s, e.c) && Step(s, e) == ConsumerStep(s, e.c, e.count)
  {
    hide ConsumerStep, CanConsume;
  }

  /** A consumer that has claimed n elements is through with them after at most 8 n + 8 operations of its own,
      whatever the producer and the other consumers do meanwhile. */
  lemma DequeueEnds(ws: seq<State>, es: seq<Event>, i: nat, j: nat, c: nat, n: nat)
    requires IsRun(ws, es) && i < j < |ws| && j <= |es|
    requires c < |ws[i].consumers| && ws[i].consumers[c].Idle? && es[i] == Consume(c, n)
    requires forall x :: i < x <= j ==> c < |ws[x].consumers| && !ws[x].consumers[c].Idle?
    ensures OperationsOf(es, i + 1, j, c) <= 8 * n + 8
  {
    hide IsRun, Step, Enabled, CanConsume;
    Stepped(ws, es, i);
    ConsumeStep(ws[i], es[i]);
    ConsumerEnds(ws, es, i + 1, j, c);
  }

  lemma ConsumeLeavesProducer(s: State, c: nat, n: nat)
    requires c < |s.consumers| && CanConsume(s, c)
    ensures ConsumerStep(s, c, n).producer == s.producer && ConsumerStep(s, c, n).enqueued == s.enqueued
  {
    hide Sized, LookupSlot, Write, Counted, StopOf, NextPart, CellOf, DoRead, DoUnlink, DoFree;
    match s.consumers[c]
    case Reading(_, _, _, _, _, _) => ReadLeavesProducer(s, c);
    case Unlinking(_, _, _, _, _) => UnlinkLeavesProducer(s, c);
    case Freeing(_, _, _, _, _) => UnlinkLeavesProducer(s, c);
    case _ =>
  }

  lemma ReadLeavesProducer(s: State, c: nat)
    requires c < |s.consumers| && CanConsume(s, c) && s.consumers[c].Reading?
    ensures DoRead(s, c).producer == s.producer && DoRead(s, c).enqueued == s.enqueued
  {
    hide Sized, Write, Counted, StopOf, NextPart, CellOf, Span;
  }

  lemma UnlinkLeavesProducer(s: State, c: nat)
    requires c < |s.consumers| && CanConsume(s, c)
    ensures s.consumers[c].Unlinking? ==> DoUnlink(s, c).producer == s.producer && DoUnlink(s, c).enqueued == s.enqueued
    ensures s.consumers[c].Freeing? ==> DoFree(s, c).producer == s.producer && DoFree(s, c).enqueued == s.enqueued
  {
    hide Sized, NextPart, BlockBefore;
  }

  lemma {:induction false} ProducerEnds(ws: seq<State>, es: seq<Event>, i: nat, j: nat)
    requires IsRun(ws, es) && i <= j < |ws| && j <= |es|
    requires forall x :: i <= x <= j ==> !ws[x].producer.Resting?
    ensures ProducerOperations(es, i, j) + ProducerWork(ws[j]) <= ProducerWork(ws[i])
    decreases j
  {
    hide IsRun, Step, Enabled, Inv, ConsumerStep, ProducerStep, ProducerWork, CanConsume;
    if i < j {
      ProducerEnds(ws, es, i, j - 1);
      RunKeeps(ws, es, j - 1);
      Stepped(ws, es, j - 1);
      var s, e := ws[j - 1], es[j - 1];
      NotAnEnqueue(s, e);
      if e.Produce? {
        ProducerProgress(s, e);
        ProduceStep(s, e);
      } else {
        S.RingEffect(s, e);
        ConsumeStep(s, e);
        ConsumeLeavesProducer(s, e.c, e.count);
        SameWork(s, ws[j]);
      }
    }
  }

  lemma SameWork(s: State, s': State)
    requires s'.producer == s.producer && s'.tail == s.tail
    ensures ProducerWork(s') == ProducerWork(s)
  {
    hide BlocksFor;
  }

  lemma NotAnEnqueue(s: State, e: Event)
    requires Enabled(s, e) && !s.producer.Resting?
    ensures !e.Enqueue?
  {
  }

  lemma ProduceStep(s: State, e: Event)
    requires Enabled(s, e) && e.Produce?
    ensures Sized(s) && EntryInRange(s) && Step(s, e) == ProducerStep(s, e)
  {
    hide ProducerStep, Sized, EntryInRange, CanProduce;
  }

  /** An enqueue of n elements is over, one way or the other, after at most 12 operations of the producer for each
      block that it needs and one for each element, whatever the consumers do meanwhile. */
  lemma EnqueueEnds(ws: seq<State>, es: seq<Event>, i: nat, j: nat, vals: seq<Value>)
    requires IsRun(ws, es) && i < j < |ws| && j <= |es| && es[i] == Enqueue(vals)
    requires forall x :: i < x <= j ==> !ws[x].producer.Resting?
    ensures BlocksFor(ws[i].tail) <= BlocksFor(ws[i].tail + |vals|)
    ensures ProducerOperations(es, i + 1, j) <= 12 * (BlocksFor(ws[i].tail + |vals|) - BlocksFor(ws[i].tail)) + |vals| + 5
  {
    hide IsRun, Step, Enabled, BlocksFor;
    Stepped(ws, es, i);
    EnqueueStep(ws[i], vals);
    ProducerEnds(ws, es, i + 1, j);
    BlocksForMonotone(ws[i].tail, ws[i].tail + |vals|);
  }

  lemma EnqueueStep(s: State, vals: seq<Value>)
    requires Enabled(s, Enqueue(vals))
    ensures Step(s, Enqueue(vals)) == s.(producer := Checking(vals, []))
  {
  }

  // ---------------------------------------------------------------- what an enqueue comes to

  /** The producer still means to publish these elements. */
  ghost predicate Bringing(p: Producer, vals: seq<Value>) {
    match p
    case Resting => false
    case Rewinding(_, _) => false
    case Nulling(_, _) => false
    case Undoing(_, _) => false
    case UndoRewinding(_, _) => false
    case Returning(_) => false
    case _ => p.vals == vals
  }

  ghost predicate GivingUp(p: Producer) {
    p.Rewinding? || p.Nulling? || p.Undoing? || p.UndoRewinding? || p.Returning?
  }

  /** Memory is refused for a larger index or for a block, or another block would make the sub-queue span half the
      index range. */
  ghost predicate Refuses(s: State, e: Event) {
    && e.Produce?
    && match s.producer
       case Growing(_, _) => !e.ok
       case Requisitioning(_, _, _) => !e.ok
       case Checking(_, got) => BLOCK_SIZE * NextBlock(s, got) + BLOCK_SIZE - s.head >= HALF
       case _ => false
  }

  ghost predicate SameContents(s: State, s': State) {
    s'.tail == s.tail && s'.enqueued == s.enqueued
  }

  lemma ProducerCourse(s: State, e: Event, vals: seq<Value>)
    requires Inv(s) && Enabled(s, e) && e.Produce?
    ensures var s' := ProducerStep(s, e);
            && (Bringing(s.producer, vals) ==>
                  || (SameContents(s, s') && (Bringing(s'.producer, vals) || (GivingUp(s'.producer) && Refuses(s, e))))
                  || (s'.producer == Resting && s'.tail == s.tail + |vals| && s'.enqueued == s.enqueued + vals))
            && (GivingUp(s.producer) ==> SameContents(s, s') && (GivingUp(s'.producer) || s'.producer == Resting))
  {
    hide Inv, Sized, CanProduce, DoCheck, DoProbe, DoGrow, DoStoreKey, DoStoreTail, DoRequisition, DoLink, DoFill, DoRewind,
         DoNull, DoUndo, DoUndoRewind, DoReturn, Refuses;
    if s.producer.Checking? {
      CheckCourse(s, e, vals);
    } else if s.producer.Probing? || s.producer.Growing? || s.producer.StoringKey? || s.producer.StoringTail? {
      IndexCourse(s, e, vals);
    } else {
      EndCourse(s, e, vals);
    }
  }

  lemma CheckCourse(s: State, e: Event, vals: seq<Value>)
    requires Inv(s) && e.Produce? && s.producer.Checking?
    ensures var s' := DoCheck(s);
            Bringing(s.producer, vals) ==>
              SameContents(s, s') && (Bringing(s'.producer, vals) || (GivingUp(s'.producer) && Refuses(s, e)))
  {
    hide Inv, BlocksFor, Full;
    FullHere(s);
  }

  lemma FullHere(s: State)
    requires Inv(s) && s.producer.Checking?
    ensures var x := NextBlock(s, s.producer.got);
            Full(x, s.head) <==> BLOCK_SIZE * x + BLOCK_SIZE - s.head >= HALF
  {
    hide IndexInv, OwnerInv, ConsumerInv, ContentInv, BlocksFor, Linked, Full, Less;
    BlocksForBounds(s.tail);
    FullIff(NextBlock(s, s.producer.got), s.head);
  }

  lemma IndexCourse(s: State, e: Event, vals: seq<Value>)
    requires e.Produce? && Sized(s)
    requires s.producer.Probing? || s.producer.Growing? || s.producer.StoringKey? || s.producer.StoringTail?
    requires EntryInRange(s)
    ensures var s' := ProducerStep(s, e);
            Bringing(s.producer, vals) ==>
              SameContents(s, s') && (Bringing(s'.producer, vals) || (GivingUp(s'.producer) && Refuses(s, e)))
  {
    hide Sized, Grown, BlocksFor;
  }

  lemma EndCourse(s: State, e: Event, vals: seq<Value>)
    requires e.Produce? && Sized(s) && EntryInRange(s)
    requires !s.producer.Checking? && !s.producer.Probing? && !s.producer.Growing? && !s.producer.StoringKey? && !s.producer.StoringTail?
    ensures var s' := ProducerStep(s, e);
            && (Bringing(s.producer, vals) ==>
                  || (SameContents(s, s') && (Bringing(s'.producer, vals) || (GivingUp(s'.producer) && Refuses(s, e))))
                  || (s'.producer == Resting && s'.tail == s.tail + |vals| && s'.enqueued == s.enqueued + vals))
            && (GivingUp(s.producer) ==> SameContents(s, s') && (GivingUp(s'.producer) || s'.producer == Resting))
  {
    hide Sized, SlotFor, Write, BlockOf, BlocksFor;
  }

  /** Where an enqueue that began at moment i is at moment j. */
  ghost predicate OnCourse(ws: seq<State>, es: seq<Event>, i: nat, j: nat, vals: seq<Value>)
    requires i < j < |ws| && j <= |es|
  {
    && SameContents(ws[i], ws[j])
    && (Bringing(ws[j].producer, vals) || (GivingUp(ws[j].producer) && exists x :: i < x < j && Refuses(ws[x], es[x])))
  }

  lemma {:induction false} StaysOnCourse(ws: seq<State>, es: seq<Event>, i: nat, j: nat, vals: seq<Value>)
    requires IsRun(ws, es) && i < j < |ws| && j <= |es| && es[i] == Enqueue(vals)
    requires forall x :: i < x <= j ==> !ws[x].producer.Resting?
    ensures OnCourse(ws, es, i, j, vals)
    decreases j
  {
    hide IsRun, Step, Enabled, Inv, ConsumerStep, ProducerStep, Refuses, GivingUp, Bringing, CanConsume;
    if j == i + 1 {
      Stepped(ws, es, i);
      EnqueueStep(ws[i], vals);
      CheckingBrings(vals);
    } else {
      StaysOnCourse(ws, es, i, j - 1, vals);
      Stepped(ws, es, j - 1);
      OneOn(ws, es, j - 1, vals);
    }
  }

  lemma CheckingBrings(vals: seq<Value>)
    ensures Bringing(Checking(vals, []), vals)
  {
  }

  /** One event while an enqueue is in progress. */
  lemma OneOn(ws: seq<State>, es: seq<Event>, j: nat, vals: seq<Value>)
    requires IsRun(ws, es) && j < |es| && j + 1 < |ws| && !ws[j].producer.Resting?
    ensures var s, s' := ws[j], ws[j + 1];
            && (Bringing(s.producer, vals) ==>
                  || (SameContents(s, s') && (Bringing(s'.producer, vals) || (GivingUp(s'.producer) && Refuses(s, es[j]))))
                  || (s'.producer == Resting && s'.tail == s.tail + |vals| && s'.enqueued == s.enqueued + vals))
            && (GivingUp(s.producer) ==> SameContents(s, s') && (GivingUp(s'.producer) || s'.producer == Resting))
  {
    hide IsRun, Step, Enabled, Inv, ConsumerStep, ProducerStep, Refuses, GivingUp, Bringing, CanConsume;
    var s, e := ws[j], es[j];
    RunKeeps(ws, es, j);
    Stepped(ws, es, j);
    NotAnEnqueue(s, e);
    if e.Produce? {
      ProducerCourse(s, e, vals);
      ProduceStep(s, e);
    } else {
      S.RingEffect(s, e);
      ConsumeStep(s, e);
      ConsumeLeavesProducer(s, e.c, e.count);
    }
  }

  /** When the producer rests again its elements are published, in order, behind all that was enqueued before; or
      nothing is, and then memory was refused or there was no room at some moment of that very call. */
  lemma EnqueueOutcome(ws: seq<State>, es: seq<Event>, i: nat, j: nat, vals: seq<Value>)
    requires IsRun(ws, es) && i < j < |ws| && j <= |es| && es[i] == Enqueue(vals)
    requires ws[j].producer.Resting? && forall x :: i < x < j ==> !ws[x].producer.Resting?
    ensures || (ws[j].tail == ws[i].tail + |vals| && ws[j].enqueued == ws[i].enqueued + vals)
            || (SameContents(ws[i], ws[j]) && exists x :: i < x < j && Refuses(ws[x], es[x]))
  {
    hide IsRun, Step, Enabled, Refuses, GivingUp, Bringing;
    Stepped(ws, es, i);
    EnqueueStep(ws[i], vals);
    if j > i + 1 {
      StaysOnCourse(ws, es, i, j - 1, vals);
      OneOn(ws, es, j - 1, vals);
      RestingIsNeither(ws[j].producer, vals);
    }
  }

  lemma RestingIsNeither(p: Producer, vals: seq<Value>)
    requires p.Resting?
    ensures !Bringing(p, vals) && !GivingUp(p)
  {
  }
}
