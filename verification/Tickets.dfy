/** How many elements each consumer of a sub-queue may take, without a lock.

    A consumer first takes a ticket from dequeueOptimisticCount, then checks it against the tail, gives
    back what the tail does not cover through dequeueOvercommit, and advances headIndex by the rest.
    One step is one atomic operation of one consumer, or the producer's store to tailIndex. */
module Tickets {
  import opened Wrappers
  import opened Words

  /** A consumer, named after what it has done last. `oc` is the value of dequeueOvercommit that it read. */
  datatype Consumer =
    | Idle
    | SawTail(max: nat, tail: nat)
    | SawOvercommit(max: nat, tail: nat, oc: nat)
    | Wants(oc: nat, desired: nat)
    | Holds(oc: nat, my: nat, desired: nat, ticket: nat)
    | Refunding(refund: nat, grant: nat)
    | Granted(grant: nat)
    | Owns(first: nat, count: nat)

  /** One addition to dequeueOptimisticCount, and how much of it was granted once that is known. */
  datatype Ticket = Ticket(my: nat, desired: nat, oc: nat, granted: Option<nat>)

  /** One addition to headIndex: the elements first, first + 1, ... of the sub-queue. */
  datatype Claim = Claim(first: nat, count: nat)

  datatype State = State(
    tail: nat,
    head: nat,
    optimistic: nat,
    overcommit: nat,
    consumers: seq<Consumer>,
    tickets: seq<Ticket>,   // history
    claims: seq<Claim>)     // history

  ghost predicate Init(s: State) {
    && s.tail == s.head == s.optimistic == s.overcommit == 0
    && s.tickets == [] && s.claims == [] && forall c <- s.consumers :: c == Idle
  }

  // ---------------------------------------------------------------- the steps

  /** What dequeue_bulk computes from the four counters: how many elements seem to be available. */
  function Available(tail: nat, count: nat, oc: nat): Word {
    Minus(W(tail), Minus(W(count), W(oc)))
  }

  /** The same check as dequeue writes it, for one element. */
  predicate SingleCheck(tail: nat, count: nat, oc: nat) {
    Less(Minus(W(count), W(oc)), W(tail))
  }

  function AfterFirstCheck(max: nat, tail: nat, oc: nat, optimistic: nat): Consumer {
    var available := Available(tail, optimistic, oc);
    if Less(0, available) then Wants(oc, Min(available, max)) else Idle
  }

  /** How much of a ticket is granted at the second check. */
  function Grant(tail: nat, my: nat, oc: nat, desired: nat): Option<nat> {
    var available := Available(tail, my, oc);
    if Less(0, available) then Some(Min(desired, available)) else None
  }

  function AfterSecondCheck(grant: Option<nat>, desired: nat): Consumer {
    match grant
    case None => Refunding(desired, 0)
    case Some(a) => if a < desired then Refunding(desired - a, a) else Granted(a)
  }

  function GrantedOf(grant: Option<nat>): nat {
    if grant.Some? then grant.value else 0
  }

  function Settle(ts: seq<Ticket>, j: nat, a: nat): seq<Ticket> {
    if j < |ts| then ts[j := ts[j].(granted := Some(a))] else ts
  }

  /** The next atomic operation of consumer c; max matters only when it starts a dequeue_bulk. */
  function Next(s: State, c: nat, max: nat): State
    requires c < |s.consumers|
  {
    match s.consumers[c]
    case Idle => s.(consumers := s.consumers[c := SawTail(max, s.tail)])
    case SawTail(m, t) => s.(consumers := s.consumers[c := SawOvercommit(m, t, s.overcommit)])
    case SawOvercommit(m, t, oc) => s.(consumers := s.consumers[c := AfterFirstCheck(m, t, oc, s.optimistic)])
    case Wants(oc, d) => s.(consumers := s.consumers[c := Holds(oc, s.optimistic, d, |s.tickets|)],
                            optimistic := s.optimistic + d,
                            tickets := s.tickets + [Ticket(s.optimistic, d, oc, None)])
    case Holds(oc, my, d, j) =>
      var grant := Grant(s.tail, my, oc, d);
      s.(consumers := s.consumers[c := AfterSecondCheck(grant, d)],
         tickets := Settle(s.tickets, j, GrantedOf(grant)))
    case Refunding(r, a) => s.(consumers := s.consumers[c := if a > 0 then Granted(a) else Idle],
                               overcommit := s.overcommit + r)
    case Granted(a) => s.(consumers := s.consumers[c := Owns(s.head, a)], head := s.head + a,
                         claims := s.claims + [Claim(s.head, a)])
    case Owns(_, _) => s.(consumers := s.consumers[c := Idle])
  }

  datatype Event = Publish(n: nat) | Consume(c: nat, max: nat)

  /** The producer never lets the elements waiting reach half the index range (it refuses to start a
      block then: see BlockRing). */
  ghost predicate IsStep(s: State, e: Event, s': State) {
    match e
    case Publish(n) => s.tail + n < s.head + HALF && s' == s.(tail := s.tail + n)
    case Consume(c, max) =>
      c < |s.consumers| && s' == Next(s, c, max)
  }

  /** The window that modular comparison needs at the second check: the consumer's position is not more
      than half the range past the tail. */
  ghost predicate InWindow(s: State, e: Event) {
    e.Consume? && e.c < |s.consumers| && s.consumers[e.c].Holds? ==>
      s.consumers[e.c].my - s.consumers[e.c].oc - s.tail <= HALF
  }

  ghost predicate IsRun(ws: seq<State>, es: seq<Event>) {
    && |ws| == |es| + 1 && Init(ws[0])
    && (forall i :: 0 <= i < |es| ==> IsStep(ws[i], es[i], ws[i + 1]) && InWindow(ws[i], es[i]))
  }

  // ---------------------------------------------------------------- sums over the tickets and the consumers

  ghost function Desired(ts: seq<Ticket>): nat {
    if ts == [] then 0 else Desired(ts[..|ts| - 1]) + ts[|ts| - 1].desired
  }

  ghost function TakenOf(t: Ticket): nat {
    if t.granted.Some? then t.granted.value else 0
  }

  ghost function RefundOf(t: Ticket): int {
    if t.granted.Some? then t.desired - t.granted.value else 0
  }

  ghost function Taken(ts: seq<Ticket>): nat {
    if ts == [] then 0 else Taken(ts[..|ts| - 1]) + TakenOf(ts[|ts| - 1])
  }

  ghost function Refunded(ts: seq<Ticket>): int {
    if ts == [] then 0 else Refunded(ts[..|ts| - 1]) + RefundOf(ts[|ts| - 1])
  }

  /** What a consumer still has to add to headIndex, to dequeueOvercommit, and the ticket it has not
      checked yet. */
  ghost function ToTake(c: Consumer): nat {
    match c
    case Refunding(_, a) => a
    case Granted(a) => a
    case _ => 0
  }

  ghost function ToRefund(c: Consumer): nat {
    if c.Refunding? then c.refund else 0
  }

  ghost function Unchecked(c: Consumer): nat {
    if c.Holds? then c.desired else 0
  }

  /** The tickets taken but not yet settled. */
  ghost function Pending(c: Consumer): nat {
    ToTake(c) + ToRefund(c) + Unchecked(c)
  }

  ghost function Total(f: Consumer -> nat, cs: seq<Consumer>): nat {
    if cs == [] then 0 else Total(f, cs[..|cs| - 1]) + f(cs[|cs| - 1])
  }

  lemma {:induction false} TotalUpdate(f: Consumer -> nat, cs: seq<Consumer>, i: nat, c: Consumer)
    requires i < |cs|
    ensures Total(f, cs[i := c]) == Total(f, cs) - f(cs[i]) + f(c)
    ensures Total(f, cs) >= f(cs[i])
  {
    var last := |cs| - 1;
    if i < last {
      TotalUpdate(f, cs[..last], i, c);
      assert cs[i := c][..last] == cs[..last][i := c];
    } else {
      assert cs[i := c][..last] == cs[..last];
    }
  }

  lemma {:induction false} TotalZero(f: Consumer -> nat, cs: seq<Consumer>)
    requires forall i :: 0 <= i < |cs| ==> f(cs[i]) == 0
    ensures Total(f, cs) == 0
  {
    if cs != [] {
      TotalZero(f, cs[..|cs| - 1]);
    }
  }

  /** The tickets that have not been checked against the tail. */
  ghost function Open(ts: seq<Ticket>): nat {
    if ts == [] then 0
    else Open(ts[..|ts| - 1]) + if ts[|ts| - 1].granted.None? then ts[|ts| - 1].desired else 0
  }

  lemma {:induction false} EveryTicketIsTakenRefundedOrOpen(ts: seq<Ticket>)
    ensures Desired(ts) == Taken(ts) + Refunded(ts) + Open(ts)
  {
    if ts != [] {
      EveryTicketIsTakenRefundedOrOpen(ts[..|ts| - 1]);
    }
  }

  lemma SumsOfSnoc(ts: seq<Ticket>, t: Ticket)
    ensures Desired(ts + [t]) == Desired(ts) + t.desired
    ensures Taken(ts + [t]) == Taken(ts) + TakenOf(t)
    ensures Refunded(ts + [t]) == Refunded(ts) + RefundOf(t)
    ensures Open(ts + [t]) == Open(ts) + if t.granted.None? then t.desired else 0
  {
    assert (ts + [t])[..|ts|] == ts;
  }

  /** Settling ticket j moves its elements from open to taken and refunded in every longer prefix. */
  lemma {:induction false} SumsOfSettle(ts: seq<Ticket>, j: nat, a: nat)
    requires j < |ts| && ts[j].granted.None?
    ensures Desired(Settle(ts, j, a)) == Desired(ts)
    ensures Taken(Settle(ts, j, a)) == Taken(ts) + a
    ensures Refunded(Settle(ts, j, a)) == Refunded(ts) + ts[j].desired - a
    ensures Open(Settle(ts, j, a)) == Open(ts) - ts[j].desired
  {
    var last := |ts| - 1;
    if j < last {
      SumsOfSettle(ts[..last], j, a);
      assert Settle(ts, j, a)[..last] == Settle(ts[..last], j, a);
    } else {
      assert Settle(ts, j, a)[..last] == ts[..last];
    }
  }

  lemma PrefixOfSettle(ts: seq<Ticket>, j: nat, a: nat, k: nat)
    requires j < |ts| && k <= |ts| && ts[j].granted.None?
    ensures Desired(Settle(ts, j, a)[..k]) == Desired(ts[..k])
    ensures Refunded(Settle(ts, j, a)[..k]) == Refunded(ts[..k]) + if j < k then ts[j].desired - a else 0
  {
    if j < k {
      SumsOfSettle(ts[..k], j, a);
      assert Settle(ts, j, a)[..k] == Settle(ts[..k], j, a);
    } else {
      assert Settle(ts, j, a)[..k] == ts[..k];
    }
  }

  // ---------------------------------------------------------------- the invariant

  /** The counters are the sums over the tickets, up to what the consumers have not added yet. */
  ghost predicate Ledger(s: State) {
    && s.optimistic == Desired(s.tickets)
    && s.head + Total(ToTake, s.consumers) == Taken(s.tickets)
    && s.overcommit + Total(ToRefund, s.consumers) == Refunded(s.tickets)
    && Total(Unchecked, s.consumers) == Open(s.tickets)
  }

  /** A ticket starts where the ones before it end, knows of no more refunds than they make, and if some
      of it was granted then all that it and they may still take fits below the tail. */
  ghost predicate TicketOk(ts: seq<Ticket>, j: nat, tail: nat)
    requires j < |ts|
  {
    && ts[j].my == Desired(ts[..j])
    && ts[j].oc <= Refunded(ts[..j])
    && (ts[j].granted.Some? ==> ts[j].granted.value <= ts[j].desired)
    && (ts[j].granted.Some? && ts[j].granted.value > 0 ==> Desired(ts[..j + 1]) - Refunded(ts[..j + 1]) <= tail)
  }

  ghost predicate TicketsOk(s: State) {
    forall j :: 0 <= j < |s.tickets| ==> TicketOk(s.tickets, j, s.tail)
  }

  ghost predicate ConsumerOk(s: State, c: Consumer) {
    match c
    case SawTail(_, t) => t <= s.tail
    case SawOvercommit(_, t, oc) => t <= s.tail && oc <= s.overcommit
    case Wants(oc, _) => oc <= s.overcommit
    case Holds(oc, my, d, j) => j < |s.tickets| && s.tickets[j] == Ticket(my, d, oc, None)
    case _ => true
  }

  ghost predicate ConsumersOk(s: State) {
    && (forall i :: 0 <= i < |s.consumers| ==> ConsumerOk(s, s.consumers[i]))
    && (forall i, k :: 0 <= i < k < |s.consumers| && s.consumers[i].Holds? && s.consumers[k].Holds? ==>
          s.consumers[i].ticket != s.consumers[k].ticket)
  }

  /** The claims follow one another from 0 to the head. */
  ghost predicate ClaimsOk(claims: seq<Claim>, head: nat) {
    && (claims == [] ==> head == 0)
    && (claims != [] ==> claims[0].first == 0 && claims[|claims| - 1].first + claims[|claims| - 1].count == head)
    && (forall k :: 0 < k < |claims| ==> claims[k].first == claims[k - 1].first + claims[k - 1].count)
  }

  ghost predicate Inv(s: State) {
    Ledger(s) && TicketsOk(s) && ConsumersOk(s) && ClaimsOk(s.claims, s.head) && s.head <= s.tail < s.head + HALF
  }

  lemma {:induction false} TakenFits(ts: seq<Ticket>, n: nat, tail: nat)
    requires n <= |ts| && forall j :: 0 <= j < |ts| ==> TicketOk(ts, j, tail)
    ensures Taken(ts[..n]) <= tail
  {
    if n > 0 {
      var t := ts[n - 1];
      assert ts[..n][..n - 1] == ts[..n - 1];
      TakenFits(ts, n - 1, tail);
      EveryTicketIsTakenRefundedOrOpen(ts[..n]);
      assert TicketOk(ts, n - 1, tail);
    }
  }

  /** Everything granted so far, claimed or not, fits below the tail. */
  lemma GrantsFit(s: State)
    requires Ledger(s) && TicketsOk(s)
    ensures s.head + Total(ToTake, s.consumers) <= s.tail
  {
    TakenFits(s.tickets, |s.tickets|, s.tail);
    assert s.tickets[..|s.tickets|] == s.tickets;
  }

  // ---------------------------------------------------------------- every step keeps it

  lemma TotalsUpdate(cs: seq<Consumer>, i: nat, c: Consumer)
    requires i < |cs|
    ensures Total(ToTake, cs[i := c]) == Total(ToTake, cs) - ToTake(cs[i]) + ToTake(c)
    ensures Total(ToRefund, cs[i := c]) == Total(ToRefund, cs) - ToRefund(cs[i]) + ToRefund(c)
    ensures Total(Unchecked, cs[i := c]) == Total(Unchecked, cs) - Unchecked(cs[i]) + Unchecked(c)
    ensures Total(ToTake, cs) >= ToTake(cs[i])
  {
    TotalUpdate(ToTake, cs, i, c);
    TotalUpdate(ToRefund, cs, i, c);
    TotalUpdate(Unchecked, cs, i, c);
  }

  lemma PublishKeeps(s: State, n: nat)
    requires Inv(s) && s.tail + n < s.head + HALF
    ensures Inv(s.(tail := s.tail + n))
  {
    hide Total, Desired, Taken, Refunded, Open;
    var s' := s.(tail := s.tail + n);
    forall j | 0 <= j < |s'.tickets|
      ensures TicketOk(s'.tickets, j, s'.tail)
    {
      assert TicketOk(s.tickets, j, s.tail);
    }
    forall i | 0 <= i < |s'.consumers|
      ensures ConsumerOk(s', s'.consumers[i])
    {
      assert ConsumerOk(s, s.consumers[i]);
    }
  }

  /** Steps that only move a consumer, or add to one of the counters. */
  lemma MoveKeeps(s: State, c: nat, max: nat)
    requires Inv(s) && c < |s.consumers| && !s.consumers[c].Wants? && !s.consumers[c].Holds?
    ensures Inv(Next(s, c, max))
  {
    hide Total, Desired, Taken, Refunded, Open;
    var s' := Next(s, c, max);
    GrantsFit(s);
    TotalsUpdate(s.consumers, c, s'.consumers[c]);
    assert ConsumerOk(s, s.consumers[c]);
    assert TicketsOk(s');
    forall i | 0 <= i < |s'.consumers|
      ensures ConsumerOk(s', s'.consumers[i])
    {
      assert ConsumerOk(s, s.consumers[i]);
    }
  }

  lemma TakeKeeps(s: State, c: nat, max: nat)
    requires Inv(s) && c < |s.consumers| && s.consumers[c].Wants?
    ensures Inv(Next(s, c, max))
  {
    hide Total, Desired, Taken, Refunded, Open;
    var s' := Next(s, c, max);
    var t := s'.tickets[|s.tickets|];
    TotalsUpdate(s.consumers, c, s'.consumers[c]);
    SumsOfSnoc(s.tickets, t);
    assert ConsumerOk(s, s.consumers[c]);
    forall j | 0 <= j < |s'.tickets|
      ensures TicketOk(s'.tickets, j, s'.tail)
    {
      assert s'.tickets[..j] == s.tickets[..j];
      if j < |s.tickets| {
        assert TicketOk(s.tickets, j, s.tail);
        assert s'.tickets[..j + 1] == s.tickets[..j + 1];
      } else {
        assert s.tickets[..j] == s.tickets;
      }
    }
    forall i | 0 <= i < |s'.consumers|
      ensures ConsumerOk(s', s'.consumers[i])
    {
      assert ConsumerOk(s, s.consumers[i]);
    }
  }

  /** Within the window the second check never grants past the tail. */
  lemma GrantIsCovered(tail: nat, my: nat, oc: nat, desired: nat)
    requires my - oc - tail <= HALF
    ensures GrantedOf(Grant(tail, my, oc, desired)) <= desired
    ensures GrantedOf(Grant(tail, my, oc, desired)) > 0 ==>
              my - oc + GrantedOf(Grant(tail, my, oc, desired)) <= tail
  {
    var d := tail - (my - oc);
    MinusOfWords(my, oc);
    MinusOfWords(tail, my - oc);
    if d < 0 {
      SmallWord(d);
    }
    MinusOfWords(0, d);
    SmallWord(-d);
  }

  lemma CheckKeeps(s: State, c: nat, max: nat)
    requires Inv(s) && c < |s.consumers| && s.consumers[c].Holds?
    requires s.consumers[c].my - s.consumers[c].oc - s.tail <= HALF
    ensures Inv(Next(s, c, max))
  {
    hide Total, Desired, Taken, Refunded, Open, Grant;
    var s' := Next(s, c, max);
    var Holds(oc, my, d, j) := s.consumers[c];
    assert ConsumerOk(s, s.consumers[c]);
    GrantIsCovered(s.tail, my, oc, d);
    var a := GrantedOf(Grant(s.tail, my, oc, d));
    TotalsUpdate(s.consumers, c, s'.consumers[c]);
    SumsOfSettle(s.tickets, j, a);
    SettleKeepsTickets(s, j, a);
    forall i | 0 <= i < |s'.consumers|
      ensures ConsumerOk(s', s'.consumers[i])
    {
      assert ConsumerOk(s, s.consumers[i]);
    }
  }

  lemma SettleKeepsTickets(s: State, j: nat, a: nat)
    requires TicketsOk(s) && j < |s.tickets| && s.tickets[j].granted.None? && a <= s.tickets[j].desired
    requires a > 0 ==> s.tickets[j].my - s.tickets[j].oc + a <= s.tail
    ensures TicketsOk(s.(tickets := Settle(s.tickets, j, a)))
  {
    hide Desired, Taken, Refunded, Open;
    var ts, ts' := s.tickets, Settle(s.tickets, j, a);
    forall k | 0 <= k < |ts'|
      ensures TicketOk(ts', k, s.tail)
    {
      assert TicketOk(ts, k, s.tail);
      PrefixOfSettle(ts, j, a, k);
      PrefixOfSettle(ts, j, a, k + 1);
      if k == j {
        SumsOfSnoc(ts[..j], ts[j]);
        assert ts[..j] + [ts[j]] == ts[..j + 1];
      }
    }
  }

  lemma StepKeeps(s: State, e: Event, s': State)
    requires Inv(s) && IsStep(s, e, s') && InWindow(s, e)
    ensures Inv(s')
  {
    hide Inv, Next;
    match e
    case Publish(n) => PublishKeeps(s, n);
    case Consume(c, max) =>
      if s.consumers[c].Wants? {
        TakeKeeps(s, c, max);
      } else if s.consumers[c].Holds? {
        CheckKeeps(s, c, max);
      } else {
        MoveKeeps(s, c, max);
      }
  }

  lemma InitIsOk(s: State)
    requires Init(s)
    ensures Inv(s)
  {
    forall i | 0 <= i < |s.consumers|
      ensures s.consumers[i] == Idle
    {
      assert s.consumers[i] in s.consumers;
    }
    TotalZero(ToTake, s.consumers);
    TotalZero(ToRefund, s.consumers);
    TotalZero(Unchecked, s.consumers);
  }

  lemma {:induction false} RunKeeps(ws: seq<State>, es: seq<Event>, i: nat)
    requires IsRun(ws, es) && i < |ws|
    ensures Inv(ws[i])
  {
    hide Inv, IsStep, InWindow, Init;
    if i == 0 {
      InitIsOk(ws[0]);
    } else {
      RunKeeps(ws, es, i - 1);
      StepKeeps(ws[i - 1], es[i - 1], ws[i]);
    }
  }

  // ---------------------------------------------------------------- what the protocol promises

  lemma {:induction false} ClaimsInOrder(claims: seq<Claim>, head: nat, k: nat, m: nat)
    requires ClaimsOk(claims, head) && k <= m < |claims|
    ensures k < m ==> claims[k].first + claims[k].count <= claims[m].first
    ensures claims[m].first + claims[m].count <= head
    decreases |claims| - k, |claims| - m
  {
    if k < m {
      ClaimsInOrder(claims, head, k + 1, m);
    } else if m + 1 < |claims| {
      ClaimsInOrder(claims, head, m, m + 1);
    }
  }

  /** The ranges of elements that consumers take never overlap, follow one another without a gap from
      element 0 on, and lie below tailIndex, whatever the steps of the others in between. */
  lemma ClaimsPartitionTheFront(ws: seq<State>, es: seq<Event>, i: nat)
    requires IsRun(ws, es) && i < |ws|
    ensures var s := ws[i];
            && s.head <= s.tail
            && (forall k :: 0 <= k < |s.claims| ==> s.claims[k].first + s.claims[k].count <= s.head)
            && (forall k, m :: 0 <= k < m < |s.claims| ==> s.claims[k].first + s.claims[k].count <= s.claims[m].first)
            && (forall k :: 0 < k < |s.claims| ==> s.claims[k].first == s.claims[k - 1].first + s.claims[k - 1].count)
  {
    RunKeeps(ws, es, i);
    var s := ws[i];
    forall k, m | 0 <= k <= m < |s.claims|
      ensures s.claims[m].first + s.claims[m].count <= s.head
      ensures k < m ==> s.claims[k].first + s.claims[k].count <= s.claims[m].first
    {
      ClaimsInOrder(s.claims, s.head, k, m);
    }
  }

  /** A consumer about to advance headIndex stays below the tail. */
  lemma ClaimIsCovered(s: State, c: nat)
    requires Inv(s) && c < |s.consumers| && s.consumers[c].Granted?
    ensures s.head + s.consumers[c].grant <= s.tail
  {
    GrantsFit(s);
    TotalUpdate(ToTake, s.consumers, c, Idle);
  }

  lemma {:induction false} PendingSplits(cs: seq<Consumer>)
    ensures Total(Pending, cs) == Total(ToTake, cs) + Total(ToRefund, cs) + Total(Unchecked, cs)
  {
    if cs != [] {
      PendingSplits(cs[..|cs| - 1]);
    }
  }

  /** Every ticket that was taken is claimed, given back, or still in some consumer's hands. */
  lemma TicketsAreConserved(ws: seq<State>, es: seq<Event>, i: nat)
    requires IsRun(ws, es) && i < |ws|
    ensures ws[i].optimistic == ws[i].head + ws[i].overcommit + Total(Pending, ws[i].consumers)
  {
    RunKeeps(ws, es, i);
    PendingSplits(ws[i].consumers);
    EveryTicketIsTakenRefundedOrOpen(ws[i].tickets);
  }

  /** dequeue is dequeue_bulk for one element. */
  lemma SingleIsBulkOfOne(tail: nat, count: nat, oc: nat)
    ensures SingleCheck(tail, count, oc) == Less(0, Available(tail, count, oc))
    ensures SingleCheck(tail, count, oc) ==> Min(Available(tail, count, oc), 1) == 1
  {
    MinusOfWords(count, oc);
    MinusOfWords(count - oc, tail);
    MinusOfWords(tail, count - oc);
    MinusOfWords(0, tail - (count - oc));
  }

  /** The window is needed exactly: outside it the second check grants elements that are not there. */
  lemma GrantIsCoveredIff(tail: nat, my: nat, oc: nat, desired: nat)
    requires -M < tail - (my - oc) < M && desired > 0
    ensures (GrantedOf(Grant(tail, my, oc, desired)) > 0 ==> my - oc + GrantedOf(Grant(tail, my, oc, desired)) <= tail)
            <==> my - oc - tail <= HALF
  {
    var d := tail - (my - oc);
    MinusOfWords(my, oc);
    MinusOfWords(tail, my - oc);
    SmallWord(d);
    MinusOfWords(0, d);
    SmallWord(-d);
  }

  /** More than the number of operations until the consumer knows what it may take, if anything. */
  function WorkLeft(c: Consumer): nat {
    match c
    case Idle => 0
    case SawTail(_, _) => 6
    case SawOvercommit(_, _, _) => 5
    case Wants(_, _) => 4
    case Holds(_, _, _, _) => 3
    case Refunding(_, _) => 2
    case Granted(_) => 1
    case Owns(_, _) => 0
  }

  lemma WorkGoesDown(s: State, c: nat, max: nat)
    requires c < |s.consumers|
    ensures var s' := Next(s, c, max);
            && |s'.consumers| == |s.consumers| && (forall d :: 0 <= d < |s.consumers| && d != c ==> s'.consumers[d] == s.consumers[d])
            && (s.consumers[c].Idle? ==> WorkLeft(s'.consumers[c]) == 6)
            && (!s.consumers[c].Idle? && !s.consumers[c].Owns? ==> WorkLeft(s'.consumers[c]) < WorkLeft(s.consumers[c]))
  {
    hide Available, Less;
  }

  ghost function OperationsOf(es: seq<Event>, i: nat, j: nat, c: nat): nat
    requires i <= j <= |es|
  {
    if i == j then 0 else OperationsOf(es, i, j - 1, c) + if es[j - 1].Consume? && es[j - 1].c == c then 1 else 0
  }

  /** A dequeue never waits for anybody: whatever the others do, it has made its claim or given up after at most
      seven operations of its own. */
  lemma {:induction false} DequeueIsWaitFree(ws: seq<State>, es: seq<Event>, i: nat, j: nat, c: nat, max: nat)
    requires IsRun(ws, es) && i < j < |ws| && c < |ws[i].consumers| && ws[i].consumers[c].Idle? && es[i] == Consume(c, max)
    requires forall x :: i < x < j ==> c < |ws[x].consumers| && !ws[x].consumers[c].Idle? && !ws[x].consumers[c].Owns?
    ensures c < |ws[j].consumers| && OperationsOf(es, i, j, c) + WorkLeft(ws[j].consumers[c]) <= 7
    decreases j
  {
    hide Next, WorkLeft, Init, InWindow;
    assert IsStep(ws[j - 1], es[j - 1], ws[j]);
    if j == i + 1 {
      WorkGoesDown(ws[i], c, max);
    } else {
      DequeueIsWaitFree(ws, es, i, j - 1, c, max);
      if es[j - 1].Consume? { WorkGoesDown(ws[j - 1], es[j - 1].c, es[j - 1].max); }
    }
  }

  // ---- one consumer alone

  ghost predicate OthersIdle(s: State, c: nat) {
    c < |s.consumers| && forall i :: 0 <= i < |s.consumers| && i != c ==> s.consumers[i] == Idle
  }

  /** Where consumer c can be if it began when the counters were head and tail and nobody else moved
      but the producer. */
  ghost predicate Alone(s: State, c: nat, max: nat, head: nat, tail: nat) {
    && OthersIdle(s, c)
    && head <= tail <= s.tail
    && match s.consumers[c]
       case Idle => false
       case SawTail(m, t) => m == max && t >= tail && s.head == head
       case SawOvercommit(m, t, oc) => m == max && t >= tail && s.head == head && oc == s.overcommit
       case Wants(oc, d) => oc == s.overcommit && s.head == head && Enough(s, max, head, tail, d)
       case Holds(oc, my, d, _) => oc == s.overcommit && s.head == head && my == head + oc && Enough(s, max, head, tail, d)
       case Refunding(_, _) => false
       case Granted(a) => s.head == head && Enough(s, max, head, tail, a)
       case Owns(first, a) => first == head && Enough(s, max, head, tail, a)
  }

  /** d is within what was asked for and what is there, and no less than what was there at first. */
  ghost predicate Enough(s: State, max: nat, head: nat, tail: nat, d: nat) {
    head <= tail && head < s.tail && Min(max, tail - head) <= d <= max && head + d <= s.tail
  }

  lemma AloneCounts(s: State, c: nat)
    requires Inv(s) && OthersIdle(s, c)
    ensures s.optimistic == s.head + s.overcommit + Pending(s.consumers[c])
  {
    PendingSplits(s.consumers);
    EveryTicketIsTakenRefundedOrOpen(s.tickets);
    TotalUpdate(Pending, s.consumers, c, Idle);
    TotalZero(Pending, s.consumers[c := Idle]);
  }

  /** With the counters in step, the number of elements seen is the number there. */
  lemma AvailableIsExact(tail: nat, head: nat, oc: nat)
    requires head <= tail < head + HALF
    ensures Available(tail, head + oc, oc) == tail - head
    ensures Less(0, Available(tail, head + oc, oc)) <==> head < tail
  {
    MinusOfWords(head + oc, oc);
    MinusOfWords(tail, head);
    SmallWord(tail - head);
    MinusOfWords(0, tail - head);
    SmallWord(head - tail);
  }

  /** One step of consumer c alone: it goes on, or it gives up and then there was nothing. */
  lemma AloneStep(s: State, c: nat, max: nat, head: nat, tail: nat, e: Event, s': State)
    requires Inv(s) && IsStep(s, e, s') && Alone(s, c, max, head, tail) && !s.consumers[c].Owns?
    requires e.Publish? || e.c == c
    ensures Alone(s', c, max, head, tail) || (s'.consumers[c] == Idle && tail == head && s'.head == head)
  {
    hide Inv, Available, Total, Pending;
    AloneCounts(s, c);
    AlonePending(s.consumers[c]);
    InvFacts(s, c);
    if e.Consume? {
      match s.consumers[c]
      case SawOvercommit(m, t, oc) => AvailableIsExact(t, s.head, oc);
      case Holds(oc, my, d, j) => AvailableIsExact(s.tail, s.head, oc);
      case _ =>
    }
  }

  lemma AlonePending(c: Consumer)
    ensures c.Idle? || c.SawTail? || c.SawOvercommit? || c.Wants? ==> Pending(c) == 0
  {
  }

  lemma InvFacts(s: State, c: nat)
    requires Inv(s) && c < |s.consumers|
    ensures s.head <= s.tail < s.head + HALF && ConsumerOk(s, s.consumers[c])
  {
  }

  /** The steps up to number i are one dequeue_bulk(max) of consumer c, up to its claim or its failure,
      mixed with steps of the producer. */
  ghost predicate AloneUpTo(ws: seq<State>, es: seq<Event>, c: nat, max: nat, i: nat) {
    && |ws| == |es| + 1 && 0 < i < |ws|
    && OthersIdle(ws[0], c) && ws[0].consumers[c] == Idle && es[0] == Consume(c, max)
    && (forall k :: 0 <= k < i ==> IsStep(ws[k], es[k], ws[k + 1]) && (es[k].Publish? || es[k].c == c))
    && (forall k :: 0 < k < i ==> c < |ws[k].consumers| && !ws[k].consumers[c].Idle? && !ws[k].consumers[c].Owns?)
  }

  /** A dequeue during which no other consumer is in flight takes everything it asked for that was there
      when it began, so it fails only if the sub-queue was empty then. Elements that the producer adds
      meanwhile may or may not be taken. */
  lemma {:induction false} DequeueAloneSucceeds(ws: seq<State>, es: seq<Event>, c: nat, max: nat, i: nat)
    requires AloneUpTo(ws, es, c, max, i) && Inv(ws[0])
    ensures var head, tail := ws[0].head, ws[0].tail;
            && c < |ws[i].consumers|
            && (ws[i].consumers[c].Idle? ==> head == tail)
            && (ws[i].consumers[c].Owns? ==>
                  && ws[i].consumers[c].first == head
                  && Min(max, tail - head) <= ws[i].consumers[c].count <= max)
  {
    AloneRun(ws, es, c, max, i);
  }

  lemma {:induction false} AloneRun(ws: seq<State>, es: seq<Event>, c: nat, max: nat, i: nat)
    requires AloneUpTo(ws, es, c, max, i) && Inv(ws[0])
    ensures Inv(ws[i]) && OthersIdle(ws[i], c)
    ensures Alone(ws[i], c, max, ws[0].head, ws[0].tail) || (ws[i].consumers[c] == Idle && ws[0].tail == ws[0].head)
  {
    hide Inv, Alone, IsStep;
    if i == 1 {
      AloneStart(ws[0], c, max, ws[1]);
    } else {
      AloneRun(ws, es, c, max, i - 1);
      AloneInWindow(ws[i - 1], c, max, ws[0].head, ws[0].tail, es[i - 1]);
      StepKeeps(ws[i - 1], es[i - 1], ws[i]);
      AloneStep(ws[i - 1], c, max, ws[0].head, ws[0].tail, es[i - 1], ws[i]);
      StepKeepsOthers(ws[i - 1], c, es[i - 1], ws[i]);
    }
  }

  lemma AloneStart(s: State, c: nat, max: nat, s': State)
    requires Inv(s) && OthersIdle(s, c) && s.consumers[c] == Idle && IsStep(s, Consume(c, max), s')
    ensures Inv(s') && Alone(s', c, max, s.head, s.tail) && OthersIdle(s', c)
  {
    StepKeeps(s, Consume(c, max), s');
  }

  lemma AloneInWindow(s: State, c: nat, max: nat, head: nat, tail: nat, e: Event)
    requires Alone(s, c, max, head, tail) && (e.Publish? || e.c == c)
    ensures InWindow(s, e)
  {
  }

  lemma StepKeepsOthers(s: State, c: nat, e: Event, s': State)
    requires OthersIdle(s, c) && IsStep(s, e, s') && (e.Publish? || e.c == c)
    ensures OthersIdle(s', c)
  {
  }
}
