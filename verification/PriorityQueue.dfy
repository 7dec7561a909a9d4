/** The four queues behind one interface, one call after another: an element goes to the queue of its
    priority, a bulk dequeue serves the higher priorities first. */
module PriorityQueue {
  import opened Words
  import opened Lanes
  import C = ConcurrentQueue

  type Id = nat

  const PRIORITIES := 4

  ghost function ObjectsOfAll(qs: seq<C.ConcurrentQueue>): set<object>
    reads qs
  {
    set p, o | 0 <= p < |qs| && o in qs[p].Objects() :: o
  }

  ghost function TablesOf(qs: seq<C.ConcurrentQueue>): set<object>
    reads qs
  {
    set p | 0 <= p < |qs| :: qs[p].table
  }

  ghost function View(qs: seq<C.ConcurrentQueue>): (v: seq<seq<seq<Value>>>)
    reads qs, ObjectsOfAll(qs)
    ensures |v| == |qs| && forall p :: 0 <= p < |qs| ==> v[p] == qs[p].Lanes()
  {
    if qs == [] then []
    else
      assert forall p :: 0 <= p < |qs| - 1 ==> qs[..|qs| - 1][p] == qs[p];
      View(qs[..|qs| - 1]) + [qs[|qs| - 1].Lanes()]
  }

  class PriorityQueue {
    const queues: seq<C.ConcurrentQueue>

    /** Everything the queue is made of. */
    ghost function Repr(): set<object>
      reads queues
    {
      if |queues| == PRIORITIES then queues[0].Repr + queues[1].Repr + queues[2].Repr + queues[3].Repr else {}
    }

    /** The contents of the queues, by priority. */
    ghost function Contents(): seq<seq<seq<Value>>>
      reads queues, ObjectsOfAll(queues)
    {
      View(queues)
    }

    ghost predicate Valid()
      reads queues, Repr()
    {
      && |queues| == PRIORITIES
      && assert forall p :: 0 <= p < PRIORITIES ==> queues[p].Repr <= Repr();
         (forall p :: 0 <= p < PRIORITIES ==> queues[p].Valid())
      && (forall p, q :: 0 <= p < q < PRIORITIES ==> queues[p].Repr !! queues[q].Repr)
    }

    /** No thread has got or lost a lane. */
    twostate predicate SameThreads()
      reads queues, TablesOf(queues)
    {
      forall p :: 0 <= p < |queues| ==> queues[p].SameThreads()
    }

    /** All queues but one hold what they held, for the same threads. */
    twostate predicate OthersSame(priority: nat)
      reads queues, TablesOf(queues), ObjectsOfAll(queues)
    {
      forall p :: 0 <= p < |queues| && p != priority ==> queues[p].Lanes() == old(queues[p].Lanes()) && queues[p].SameThreads()
    }

    lemma Owners()
      requires Valid()
      ensures forall p :: 0 <= p < PRIORITIES ==> queues[p] in queues[p].Repr && queues[p].Objects() <= queues[p].Repr
    {
      hide C.ConcurrentQueue.Valid;
      forall p | 0 <= p < PRIORITIES
        ensures queues[p] in queues[p].Repr && queues[p].Objects() <= queues[p].Repr
      {
        queues[p].OwnsItself();
      }
    }

    constructor (hash: Id -> nat)
      ensures Valid() && fresh(Repr())
      ensures forall p :: 0 <= p < PRIORITIES ==> queues[p].producers == [] && queues[p].table.live == map[]
    {
      hide C.ConcurrentQueue.Valid;
      var qs: seq<C.ConcurrentQueue> := [];
      while |qs| < PRIORITIES
        invariant |qs| <= PRIORITIES
        invariant forall p :: 0 <= p < |qs| ==> qs[p].Valid() && fresh(qs[p]) && fresh(qs[p].Repr)
        invariant forall p :: 0 <= p < |qs| ==> qs[p].producers == [] && qs[p].table.live == map[]
        invariant forall p, q :: 0 <= p < q < |qs| ==> qs[p].Repr !! qs[q].Repr
      {
        label Before:
        var added := new C.ConcurrentQueue(hash);
        forall p | 0 <= p < |qs|
          ensures qs[p].Valid() && qs[p].Repr !! added.Repr
        {
          qs[p].StaysValid@Before();
        }
        qs := qs + [added];
      }
      queues := qs;
    }

    /** enqueue: the element goes to the end of the calling thread's lane of that priority, and nowhere else. */
    method Enqueue(id: Id, v: Value, priority: nat) returns (ok: bool, ghost lane: nat)
      requires Valid() && priority < PRIORITIES
      modifies queues[priority].Repr
      ensures Valid() && fresh(Repr() - old(Repr()))
      ensures queues[priority].Appended(id, [v], ok, lane) && OthersSame(priority)
    {
      hide C.ConcurrentQueue.Valid, C.ConcurrentQueue.Appended;
      Owners();
      label Before:
      ok, lane := queues[priority].Enqueue(id, v);
      forall p | 0 <= p < PRIORITIES && p != priority
        ensures queues[p].Valid() && queues[p].Lanes() == old@Before(queues[p].Lanes()) && queues[p].SameThreads@Before()
      {
        queues[p].StaysValid@Before();
      }
    }

    /** enqueue_bulk */
    method EnqueueBulk(id: Id, vals: seq<Value>, priority: nat) returns (ok: bool, ghost lane: nat)
      requires Valid() && priority < PRIORITIES
      modifies queues[priority].Repr
      ensures Valid() && fresh(Repr() - old(Repr()))
      ensures queues[priority].Appended(id, vals, ok, lane) && OthersSame(priority)
    {
      hide C.ConcurrentQueue.Valid, C.ConcurrentQueue.Appended;
      Owners();
      label Before:
      ok, lane := queues[priority].EnqueueBulk(id, vals);
      forall p | 0 <= p < PRIORITIES && p != priority
        ensures queues[p].Valid() && queues[p].Lanes() == old@Before(queues[p].Lanes()) && queues[p].SameThreads@Before()
      {
        queues[p].StaysValid@Before();
      }
    }

    /** One priority's turn. */
    method DrainQueue(p: nat, max: nat) returns (out: seq<Value>, ghost taken: seq<seq<Value>>)
      requires Valid() && p < PRIORITIES && max > 0
      modifies queues[p].Repr
      ensures Valid() && SameThreads()
      ensures Split(old(queues[p].Lanes()), taken, queues[p].Lanes()) && InTurn(taken, queues[p].Lanes())
      ensures out == Concat(taken) && |out| == Min(max, Total(old(queues[p].Lanes())))
      ensures |old(Contents())| == PRIORITIES && old(Contents())[p] == old(queues[p].Lanes())
      ensures Contents() == old(Contents())[p := queues[p].Lanes()]
    {
      hide C.ConcurrentQueue.Valid, Split, InTurn, Concat, Total;
      Owners();
      label Before:
      out, taken := queues[p].TryDequeueBulk(max);
      forall q | 0 <= q < PRIORITIES && q != p
        ensures queues[q].Valid() && queues[q].Lanes() == old@Before(queues[q].Lanes()) && queues[q].SameThreads@Before()
      {
        queues[q].StaysValid@Before();
      }
      assert Contents() == old@Before(Contents())[p := queues[p].Lanes()];
    }

    method ServeNext(ghost before: seq<seq<seq<Value>>>, ghost taken: seq<seq<seq<Value>>>, prio: nat, out: seq<Value>, max: nat)
      returns (more: seq<Value>, ghost part: seq<seq<Value>>)
      requires Valid() && prio < PRIORITIES && Drained(before, taken, Contents(), prio, out, max) && |out| < max
      modifies queues[prio].Repr
      ensures Valid() && SameThreads()
      ensures Drained(before, taken + [part], Contents(), prio + 1, out + more, max)
    {
      hide C.ConcurrentQueue.Valid, Concat, Total, Split, InTurn, ConcatAll, TotalAll, View, Drained, Valid;
      ghost var now := Contents();
      more, part := DrainQueue(prio, max - |out|);
      NotYet(before, taken, now, prio, out, max);
      DrainStep(before, taken, now, prio, out, max, more, part, queues[prio].Lanes());
    }

    /** try_dequeue_bulk: higher priorities first. Taking and leaving account for everything: each lane is
        what was taken from it followed by what is left. */
    method TryDequeueBulk(max: nat) returns (out: seq<Value>, ghost taken: seq<seq<seq<Value>>>)
      requires Valid()
      modifies Repr()
      ensures Valid() && SameThreads()
      ensures var before, after := old(Contents()), Contents();
              && SplitAll(before, taken, after) && ByPriority(taken, after)
              && out == ConcatAll(taken) && |out| == Min(max, TotalAll(before))
    {
      hide C.ConcurrentQueue.Valid, Concat, Total, Split, InTurn, ConcatAll, TotalAll, View, Drained, SplitAll, ByPriority, Valid;
      out, taken := [], [];
      ghost var before := Contents();
      NoneDrained(before, max);
      Four();
      var prio := 0;
      while prio < PRIORITIES
        invariant prio <= PRIORITIES && Valid() && SameThreads() && Drained(before, taken, Contents(), prio, out, max)
      {
        if |out| >= max {
          break;
        }
        var more, part := ServeNext(before, taken, prio, out, max);
        out, taken, prio := out + more, taken + [part], prio + 1;
      }
      taken := FinishDrain(before, taken, Contents(), prio, out, max);
    }

    lemma Four()
      requires Valid()
      ensures |queues| == PRIORITIES
    {
    }
  }

  /** A drain that has served the priorities below prio: `now` is what the queues hold. */
  ghost predicate Drained(before: seq<seq<seq<Value>>>, taken: seq<seq<seq<Value>>>, now: seq<seq<seq<Value>>>, prio: nat,
                          out: seq<Value>, max: nat) {
    && |before| == |now| && |taken| == prio <= |before| && |out| <= max && out == ConcatAll(taken)
    && (forall p :: prio <= p < |before| ==> now[p] == before[p])
    && SplitAll(before[..prio], taken, now[..prio]) && ByPriority(taken, now[..prio])
    && (|out| < max ==> forall p :: 0 <= p < prio ==> Total(now[p]) == 0)
  }

  lemma NoneDrained(before: seq<seq<seq<Value>>>, max: nat)
    ensures Drained(before, [], before, 0, [], max)
  {
  }

  lemma NotYet(before: seq<seq<seq<Value>>>, taken: seq<seq<seq<Value>>>, now: seq<seq<seq<Value>>>, prio: nat,
               out: seq<Value>, max: nat)
    requires Drained(before, taken, now, prio, out, max) && prio < |now|
    ensures |now| == |before| && now[prio] == before[prio]
  {
  }

  lemma DrainStep(before: seq<seq<seq<Value>>>, taken: seq<seq<seq<Value>>>, now: seq<seq<seq<Value>>>, prio: nat,
                  out: seq<Value>, max: nat, more: seq<Value>, part: seq<seq<Value>>, after: seq<seq<Value>>)
    requires Drained(before, taken, now, prio, out, max) && prio < |before| == |now| && |out| < max
    requires Split(before[prio], part, after) && InTurn(part, after)
    requires more == Concat(part) && |more| == Min(max - |out|, Total(before[prio]))
    ensures Drained(before, taken + [part], now[prio := after], prio + 1, out + more, max)
  {
    hide Concat, Total, Split, InTurn, ConcatAll, TotalAll, SplitAll, ByPriority;
    assert now[prio := after][..prio + 1] == now[..prio] + [after];
    ServedOne(before, taken, now[..prio], prio, part, after);
    ConcatAllSnoc(taken, part);
    PartLeft(before[prio], part, after, |more|);
  }

  /** The priorities that a drain did not reach give nothing, and then the counts add up. */
  lemma FinishDrain(before: seq<seq<seq<Value>>>, taken: seq<seq<seq<Value>>>, now: seq<seq<seq<Value>>>, prio: nat,
                    out: seq<Value>, max: nat)
    returns (all: seq<seq<seq<Value>>>)
    requires Drained(before, taken, now, prio, out, max) && (|out| < max ==> prio == |before|)
    ensures SplitAll(before, all, now) && ByPriority(all, now)
    ensures out == ConcatAll(all) && |out| == Min(max, TotalAll(before))
    decreases |before| - prio
  {
    hide Concat, Total, Split, InTurn, ConcatAll, TotalAll;
    if prio == |before| {
      all := taken;
      assert before[..prio] == before && now[..prio] == now;
      TotalAllConcat(all);
      TotalAllSplit(before, all, now);
      if |out| < max {
        TotalAllZero(now);
      }
    } else {
      var none: seq<seq<Value>> := seq(|before[prio]|, _ => []);
      NothingTakenHere(before[prio]);
      UntouchedOne(before, taken, now[..prio], prio);
      ConcatAllSnoc(taken, none);
      assert now[..prio + 1] == now[..prio] + [before[prio]];
      all := FinishDrain(before, taken + [none], now, prio + 1, out, max);
    }
  }
}
