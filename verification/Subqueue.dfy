/** The ticket protocol and the block ring together: one producer and any number of consumers running
    enqueue, enqueue_bulk, dequeue and dequeue_bulk on one sub-queue. Nothing is assumed about claims here;
    that they stay below the tail is what the tickets provide. */
module Subqueue {
  import opened Wrappers
  import opened Words
  import T = Tickets
  import B = BlockRing
  import RB = RingBlocks
  import R = RingRun

  /** The two views share tailIndex and headIndex. */
  datatype State = State(tickets: T.State, ring: B.State)

  /** The producer begins an enqueue, or performs its next operation; consumer c performs its next one,
      where max is the number of elements it asks for when it begins. */
  datatype Event =
    | Enqueue(vals: seq<B.Value>)
    | Produce(ok: bool, block: B.BlockId, cells: seq<Option<B.Value>>, junk: seq<Option<B.BlockId>>)
    | Consume(c: nat, max: nat)

  ghost predicate Init(s: State) {
    T.Init(s.tickets) && R.Init(s.ring) && |s.tickets.consumers| == |s.ring.consumers|
  }

  ghost predicate Publishes(s: State, e: Event) {
    e.Produce? && s.ring.producer.Filling? && s.ring.producer.written >= |s.ring.producer.vals|
  }

  /** The operation of the block ring that an event is, if it is one. */
  ghost predicate TouchesRing(s: State, e: Event) {
    e.Consume? ==> e.c < |s.tickets.consumers| && (s.tickets.consumers[e.c].Granted? || s.tickets.consumers[e.c].Owns?)
  }

  ghost function RingEvent(s: State, e: Event): B.Event {
    match e
    case Enqueue(vals) => B.Enqueue(vals)
    case Produce(ok, block, cells, junk) => B.Produce(ok, block, cells, junk)
    case Consume(c, _) =>
      B.Consume(c, if c < |s.tickets.consumers| && s.tickets.consumers[c].Granted? then s.tickets.consumers[c].grant else 0)
  }

  ghost predicate Enabled(s: State, e: Event) {
    && (e.Consume? ==> e.c < |s.tickets.consumers| && 0 < e.max)
    && (TouchesRing(s, e) ==> B.Enabled(s.ring, RingEvent(s, e)))
  }

  /** A consumer that has finished with its claim is idle in both views. */
  ghost predicate Finishes(ring': B.State, c: nat) {
    c < |ring'.consumers| && ring'.consumers[c].Idle?
  }

  ghost function Step(s: State, e: Event): State
    requires Enabled(s, e)
  {
    var ring' := if TouchesRing(s, e) then B.Step(s.ring, RingEvent(s, e)) else s.ring;
    match e
    case Enqueue(_) => State(s.tickets, ring')
    case Produce(_, _, _, _) =>
      State(if Publishes(s, e) then s.tickets.(tail := s.tickets.tail + |s.ring.producer.vals|) else s.tickets, ring')
    case Consume(c, max) =>
      State(if s.tickets.consumers[c].Owns? && !Finishes(ring', c) then s.tickets else T.Next(s.tickets, c, max), ring')
  }

  /** The hypothesis of the ticket protocol on its second check. */
  ghost predicate InWindow(s: State, e: Event) {
    e.Consume? ==> T.InWindow(s.tickets, T.Consume(e.c, e.max))
  }

  ghost predicate IsRun(ws: seq<State>, es: seq<Event>) {
    && |ws| == |es| + 1 && Init(ws[0])
    && forall i :: 0 <= i < |es| ==> Enabled(ws[i], es[i]) && InWindow(ws[i], es[i]) && ws[i + 1] == Step(ws[i], es[i])
  }

  // ---------------------------------------------------------------- the invariant of the whole

  /** Every consumer that is past its checks asked for something. */
  ghost predicate Positive(c: T.Consumer) {
    match c
    case SawTail(max, _) => max > 0
    case SawOvercommit(max, _, _) => max > 0
    case Wants(_, d) => d > 0
    case Holds(_, _, d, _) => d > 0
    case Granted(a) => a > 0
    case _ => true
  }

  ghost predicate Coupled(s: State) {
    && s.tickets.tail == s.ring.tail && s.tickets.head == s.ring.head
    && |s.tickets.consumers| == |s.ring.consumers|
    && forall c :: 0 <= c < |s.ring.consumers| ==>
         Positive(s.tickets.consumers[c]) && (s.tickets.consumers[c].Owns? <==> !s.ring.consumers[c].Idle?)
  }

  ghost predicate Inv(s: State) {
    T.Inv(s.tickets) && R.Inv(s.ring) && Coupled(s)
  }

  lemma NextIsPositive(t: T.State, c: nat, max: nat)
    requires c < |t.consumers| && Positive(t.consumers[c]) && max > 0
    ensures Positive(T.Next(t, c, max).consumers[c])
  {
  }

  /** The tickets cover every claim. */
  lemma ClaimsAreCovered(s: State, e: Event)
    requires Inv(s) && Enabled(s, e) && TouchesRing(s, e)
    ensures B.ClaimCovered(s.ring, RingEvent(s, e))
  {
    hide T.Inv, R.Inv, B.Enabled;
    if e.Consume? && s.tickets.consumers[e.c].Granted? {
      T.ClaimIsCovered(s.tickets, e.c);
    }
  }

  /** What a step of the ring does to the shared counters and to the consumers. */
  lemma RingEffect(r: B.State, e: B.Event)
    requires B.Enabled(r, e)
    ensures var r' := B.Step(r, e);
            && |r'.consumers| == |r.consumers|
            && (forall c :: 0 <= c < |r.consumers| && !(e.Consume? && e.c == c) ==> r'.consumers[c] == r.consumers[c])
            && r'.head == r.head + (if e.Consume? && r.consumers[e.c].Idle? then e.count else 0)
            && r'.tail == r.tail + (if e.Produce? && r.producer.Filling? && r.producer.written >= |r.producer.vals|
                                    then |r.producer.vals| else 0)
            && (e.Consume? && r.consumers[e.c].Idle? ==> !r'.consumers[e.c].Idle?)
  {
    hide B.ProducerStep, B.ConsumerStep, B.CanConsume, B.CanProduce, B.Sized;
    match e
    case Enqueue(_) =>
    case Produce(_, _, _, _) => ProducerEffect(r, e);
    case Consume(c, n) => ConsumerEffect(r, c, n);
  }

  ghost predicate ProducerFrame(r: B.State, r': B.State, n: nat) {
    r'.consumers == r.consumers && r'.head == r.head && r'.tail == r.tail + n
  }

  lemma ProducerEffect(r: B.State, e: B.Event)
    requires B.Enabled(r, e) && e.Produce?
    ensures ProducerFrame(r, B.ProducerStep(r, e),
                          if r.producer.Filling? && r.producer.written >= |r.producer.vals| then |r.producer.vals| else 0)
  {
    hide B.Sized, B.SlotFor, B.Full, B.Write, B.BlocksFor, B.BlockOf, B.Grown, B.CanProduce;
    if r.producer.Growing? || r.producer.StoringKey? || r.producer.StoringTail? || r.producer.Rewinding? || r.producer.UndoRewinding? {
      RingShapeEffect(r, e);
    }
  }

  lemma RingShapeEffect(r: B.State, e: B.Event)
    requires B.Enabled(r, e) && e.Produce?
    requires r.producer.Growing? || r.producer.StoringKey? || r.producer.StoringTail? || r.producer.Rewinding? || r.producer.UndoRewinding?
    ensures ProducerFrame(r, B.ProducerStep(r, e), 0)
  {
    hide B.Sized, B.Grown, B.BlocksFor, B.CanProduce;
  }

  ghost predicate ConsumerFrame(r: B.State, r': B.State, c: nat, n: nat)
    requires c < |r.consumers|
  {
    && |r'.consumers| == |r.consumers| && r'.consumers == r.consumers[c := r'.consumers[c]]
    && r'.tail == r.tail && r'.head == r.head + n
  }

  lemma ConsumerEffect(r: B.State, c: nat, n: nat)
    requires c < |r.consumers| && B.CanConsume(r, c)
    ensures ConsumerFrame(r, B.ConsumerStep(r, c, n), c, if r.consumers[c].Idle? then n else 0)
    ensures r.consumers[c].Idle? ==> !B.ConsumerStep(r, c, n).consumers[c].Idle?
  {
    hide B.Sized, B.LookupSlot, B.Write, B.Counted, B.StopOf, B.NextPart, B.CellOf, B.DoRead, B.DoUnlink, B.DoFree;
    match r.consumers[c]
    case Reading(_, _, _, _, _, _) => ReadEffect(r, c);
    case Unlinking(_, _, _, _, _) => UnlinkEffect(r, c);
    case Freeing(_, _, _, _, _) => UnlinkEffect(r, c);
    case _ =>
  }

  lemma ReadEffect(r: B.State, c: nat)
    requires c < |r.consumers| && B.CanConsume(r, c) && r.consumers[c].Reading?
    ensures ConsumerFrame(r, B.DoRead(r, c), c, 0)
  {
    hide B.Sized, B.Write, B.Counted, B.StopOf, B.NextPart, B.CellOf, B.Span;
  }

  lemma UnlinkEffect(r: B.State, c: nat)
    requires c < |r.consumers| && B.CanConsume(r, c)
    ensures r.consumers[c].Unlinking? ==> ConsumerFrame(r, B.DoUnlink(r, c), c, 0)
    ensures r.consumers[c].Freeing? ==> ConsumerFrame(r, B.DoFree(r, c), c, 0)
  {
    hide B.Sized, B.NextPart, B.BlockBefore;
  }

  lemma TicketsEffect(t: T.State, c: nat, max: nat)
    requires c < |t.consumers|
    ensures var t' := T.Next(t, c, max);
            && |t'.consumers| == |t.consumers| && t'.tail == t.tail
            && (forall d :: 0 <= d < |t.consumers| && d != c ==> t'.consumers[d] == t.consumers[d])
            && t'.head == t.head + (if t.consumers[c].Granted? then t.consumers[c].grant else 0)
            && (t'.consumers[c].Owns? <==> t.consumers[c].Granted?)
  {
  }

  lemma CoupledStep(s: State, e: Event)
    requires Coupled(s) && Enabled(s, e)
    ensures Coupled(Step(s, e))
  {
    hide B.Enabled, B.Step, T.Next;
    if TouchesRing(s, e) {
      RingEffect(s.ring, RingEvent(s, e));
    }
    if e.Consume? {
      NextIsPositive(s.tickets, e.c, e.max);
      TicketsEffect(s.tickets, e.c, e.max);
    }
  }

  /** The tickets of a run of the whole are a run of the protocol alone: its guard on publishing is what the
      producer's check for room ensures. */
  lemma TicketsTakeSteps(s: State, e: Event) returns (te: T.Event)
    requires Inv(s) && Enabled(s, e) && InWindow(s, e)
    ensures Step(s, e).tickets == s.tickets || (T.IsStep(s.tickets, te, Step(s, e).tickets) && T.InWindow(s.tickets, te))
  {
    hide T.Inv, R.Inv, T.Next, B.Enabled, B.Step;
    te := T.Publish(if Publishes(s, e) then |s.ring.producer.vals| else 0);
    if Publishes(s, e) {
      R.PublishFits(s.ring);
    } else if e.Consume? {
      te := T.Consume(e.c, e.max);
    }
  }

  lemma TicketsKeep(s: State, e: Event)
    requires Inv(s) && Enabled(s, e) && InWindow(s, e)
    ensures T.Inv(Step(s, e).tickets)
  {
    hide T.Inv, R.Inv, B.Enabled, Step, T.IsStep, T.InWindow, InWindow;
    var te := TicketsTakeSteps(s, e);
    if Step(s, e).tickets != s.tickets {
      T.StepKeeps(s.tickets, te, Step(s, e).tickets);
    }
  }

  lemma StepKeeps(s: State, e: Event)
    requires Inv(s) && Enabled(s, e) && InWindow(s, e)
    ensures Inv(Step(s, e))
  {
    hide T.Inv, R.Inv, T.Next, B.Enabled, B.Step, InWindow, Coupled, B.ClaimCovered;
    TicketsKeep(s, e);
    CoupledStep(s, e);
    if TouchesRing(s, e) {
      ClaimsAreCovered(s, e);
      R.StepKeeps(s.ring, RingEvent(s, e));
    }
  }

  lemma InitIsOk(s: State)
    requires Init(s)
    ensures Inv(s)
  {
    hide T.Inv, R.Inv;
    T.InitIsOk(s.tickets);
    R.InitIsOk(s.ring);
    forall c | 0 <= c < |s.tickets.consumers|
      ensures s.tickets.consumers[c] == T.Idle
    {
      assert s.tickets.consumers[c] in s.tickets.consumers;
    }
  }

  lemma {:induction false} RunKeeps(ws: seq<State>, es: seq<Event>, i: nat)
    requires IsRun(ws, es) && i < |ws|
    ensures Inv(ws[i])
  {
    hide Inv, Enabled, InWindow, Step, Init;
    if i == 0 {
      InitIsOk(ws[0]);
    } else {
      RunKeeps(ws, es, i - 1);
      StepKeeps(ws[i - 1], es[i - 1]);
    }
  }

  // ---------------------------------------------------------------- the theorem

  /** The next operation of the producer and of every consumer finds all that it touches. */
  ghost predicate CanGoOn(r: B.State) {
    && B.Sized(r) && B.EntryInRange(r)
    && forall c {:trigger r.consumers[c]} :: 0 <= c < |r.consumers| ==> !r.consumers[c].NullPointer? && B.CanConsume(r, c)
  }

  /** In every run of the sub-queue, however its producer and consumers are interleaved: claims follow one
      another from element 0 and lie below the tail; whatever was read for an element is what was enqueued
      under its number; and the next operation of every thread finds the header, entry and block it needs. */
  lemma SubqueueIsFifoAndSafe(ws: seq<State>, es: seq<Event>, i: nat)
    requires IsRun(ws, es) && i < |ws|
    ensures var t, r := ws[i].tickets, ws[i].ring;
            && t.head == r.head <= r.tail == t.tail == |r.enqueued|
            && T.ClaimsOk(t.claims, t.head)
            && (forall k <- r.read :: k < r.head && r.read[k] == Some(r.enqueued[k]))
            && CanGoOn(r)
  {
    hide T.Inv, R.Inv, IsRun, CanGoOn, T.ClaimsOk;
    RunKeeps(ws, es, i);
    Facts(ws[i].tickets, ws[i].ring);
    CanAllGoOn(ws[i].ring);
  }

  lemma CanAllGoOn(r: B.State)
    requires R.Inv(r)
    ensures CanGoOn(r)
  {
    hide R.Inv, B.CanConsume, B.Sized, B.EntryInRange;
    R.AccessesAreSafe(r);
    forall c {:trigger r.consumers[c]} | 0 <= c < |r.consumers|
      ensures !r.consumers[c].NullPointer? && B.CanConsume(r, c)
    {
      OneCanGoOn(r, c);
    }
  }

  lemma OneCanGoOn(r: B.State, c: nat)
    requires R.Inv(r) && B.Sized(r) && c < |r.consumers|
    ensures !r.consumers[c].NullPointer? && B.CanConsume(r, c)
  {
    hide R.IndexInv, R.OwnerInv, R.ConsumerInv, R.ContentInv, R.ProducerOk, B.Sized, B.CanConsume;
    R.ConsumerIsSafe(r, c);
  }

  lemma Facts(t: T.State, r: B.State)
    requires T.Inv(t) && R.Inv(r)
    ensures T.ClaimsOk(t.claims, t.head) && r.head <= r.tail == |r.enqueued|
    ensures forall k <- r.read :: k < r.head && k < |r.enqueued| && r.read[k] == Some(r.enqueued[k])
  {
    hide R.IndexInv, R.OwnerInv, R.ConsumerInv, R.ProducerOk, T.Ledger, T.TicketsOk, T.ConsumersOk;
  }

  /** When all is quiet every claimed element has been read, and the blocks still in use are those with
      elements left to dequeue or room left to fill. */
  lemma QuietSubqueue(ws: seq<State>, es: seq<Event>, i: nat)
    requires IsRun(ws, es) && i < |ws| && ws[i].ring.producer.Resting?
    requires forall c :: 0 <= c < |ws[i].tickets.consumers| ==> ws[i].tickets.consumers[c] == T.Idle
    ensures var t, r := ws[i].tickets, ws[i].ring;
            && t.optimistic == t.head + t.overcommit
            && r.blocks.Keys == r.held.Values
            && (forall k: nat :: k < r.head ==> k in r.read)
            && (forall b: nat :: b in r.held <==> b < B.BlocksFor(r.tail) && B.BLOCK_SIZE * b + B.BLOCK_SIZE > r.head)
  {
    hide T.Inv, R.Inv, IsRun, B.BlocksFor;
    RunKeeps(ws, es, i);
    QuietTickets(ws[i].tickets);
    R.QuietRing(ws[i].ring);
  }

  lemma QuietTickets(t: T.State)
    requires T.Inv(t) && forall c :: 0 <= c < |t.consumers| ==> t.consumers[c] == T.Idle
    ensures t.optimistic == t.head + t.overcommit
  {
    T.EveryTicketIsTakenRefundedOrOpen(t.tickets);
    T.TotalZero(T.ToTake, t.consumers);
    T.TotalZero(T.ToRefund, t.consumers);
    T.TotalZero(T.Unchecked, t.consumers);
  }
}
