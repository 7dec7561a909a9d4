/** The queue as its users see it, one call after another: every thread enqueues to its own sub-queue, which
    the hash table finds for it, and a bulk dequeue goes through the sub-queues from the newest on. */
module ConcurrentQueue {
  import opened Wrappers
  import opened Words
  import P = ImplicitProducer
  import H = ProducerHash
  import Q = Lanes

  type Value = nat
  type Id = nat

  ghost function ObjectsOf(ps: seq<P.ImplicitProducer>): set<object> {
    set i | 0 <= i < |ps| :: ps[i]
  }

  class ConcurrentQueue {
    const table: H.ProducerTable
    /** The list of producers, oldest first; producerListTail is the last. */
    var producers: seq<P.ImplicitProducer>
    /** Everything the queue is made of. */
    ghost var Repr: set<object>

    ghost function Objects(): set<object>
      reads this
    {
      ObjectsOf(producers)
    }

    ghost predicate Valid()
      reads this, Repr
    {
      ValidFor(|producers|)
    }

    /** Valid, but for how many producers the table knows of. */
    ghost predicate ValidFor(known: nat)
      reads this, Repr
    {
      && this in Repr && table in Repr && table.Arrays() <= Repr && Objects() <= Repr
      && (forall i :: 0 <= i < |producers| ==> producers[i] in Repr && producers[i].index in Repr)
      && table.Valid() && |table.inactive| == known
      && (forall i, j :: 0 <= i < j < |producers| ==> producers[i] != producers[j])
      && (forall i :: 0 <= i < |producers| ==> producers[i].Valid())
    }

    lemma OwnsItself()
      requires Valid()
      ensures this in Repr && Objects() <= Repr
    {
      hide P.ImplicitProducer.Valid, H.ProducerTable.Valid;
    }

    /** Which threads have which sub-queue, and what the queue is made of, are as before. */
    twostate predicate SameThreads()
      reads this, table
    {
      Repr == old(Repr) && producers == old(producers) && table.live == old(table.live)
    }

    /** What happens elsewhere does not matter. */
    twostate lemma StaysValid()
      requires old(Valid()) && unchanged(this) && unchanged(Repr)
      ensures Valid() && Lanes() == old(Lanes()) && SameThreads()
    {
      hide P.ImplicitProducer.Valid, H.ProducerTable.Valid;
      table.StaysValid();
      forall i | 0 <= i < |producers|
        ensures producers[i].Valid() && producers[i].Contents() == old(producers[i].Contents())
      {
        producers[i].StaysValid();
      }
    }

    /** The contents of the sub-queues in the order in which they are drained. */
    ghost function Lanes(): (l: seq<seq<Value>>)
      reads this, Objects()
      ensures |l| == |producers|
      ensures forall k :: 0 <= k < |l| ==> l[k] == producers[|producers| - 1 - k].Contents()
    {
      LanesOf(producers)
    }

    constructor (hash: Id -> nat)
      ensures Valid() && producers == [] && table.live == map[] && fresh(Repr)
    {
      hide H.ProducerTable.Valid;
      table := new H.ProducerTable(hash);
      producers := [];
      new;
      Repr := {this, table} + table.Arrays();
    }

    /** A sub-queue was refused memory, now or when it was made, or has no room for n more elements. */
    twostate predicate OutOfMemoryOrRoom(lane: nat, n: nat)
      reads this, Objects()
      requires lane < |producers|
    {
      producers[lane].Crowded(n) || !producers[lane].indexed ||
      producers[lane].refused > if lane < |old(producers)| then old(producers[lane].refused) else 0
    }

    /** What an enqueue does: a thread that the table does not know gets a sub-queue, perhaps a new one, unless
        there is no memory; the thread's own sub-queue, number lane, gains the elements at its end if the call
        succeeds, and all else stays. */
    twostate predicate Appended(id: Id, vals: seq<Value>, ok: bool, lane: nat)
      reads this, table, Objects()
    {
      && old(producers) <= producers && |producers| <= |old(producers)| + 1
      && (ok ==> lane < |producers| && table.live == old(table.live)[id := lane])
      && (!ok ==> table.refused > old(table.refused) || (lane < |producers| && OutOfMemoryOrRoom(lane, |vals|)))
      && (table.live == old(table.live) || (lane < |producers| && table.live == old(table.live)[id := lane]))
      && (id in old(table.live) ==> table.live == old(table.live) && producers == old(producers))
      && (forall i :: 0 <= i < |old(producers)| ==>
            producers[i].Contents() == old(producers[i].Contents()) + if ok && i == lane then vals else [])
      && (|producers| > |old(producers)| ==>
            producers[|old(producers)|].Contents() == if ok && |old(producers)| == lane then vals else [])
    }

    /** Finds the calling thread's sub-queue, or gives it one. */
    method GetProducer(id: Id) returns (p: Option<nat>)
      requires Valid()
      modifies Repr
      ensures Valid() && fresh(Repr - old(Repr))
      ensures old(producers) <= producers && |producers| <= |old(producers)| + 1
      ensures |producers| > |old(producers)| ==> producers[|old(producers)|].Contents() == []
      ensures forall i :: 0 <= i < |old(producers)| ==>
                producers[i].Contents() == old(producers[i].Contents()) && producers[i].refused == old(producers[i].refused)
      ensures p.None? ==> table.live == old(table.live) && table.refused > old(table.refused)
      ensures p.Some? ==> p.value < |producers| && table.live == old(table.live)[id := p.value]
      ensures id in old(table.live) ==> p.Some? && table.live == old(table.live) && producers == old(producers)
    {
      hide P.ImplicitProducer.Valid, P.ImplicitProducer.Contents, H.ProducerTable.Valid;
      label Before:
      p := table.GetOrAdd(id);
      Repr := Repr + table.Arrays();
      forall i | 0 <= i < |producers|
        ensures producers[i].Valid() && producers[i].Contents() == old@Before(producers[i].Contents())
      {
        producers[i].StaysValid@Before();
      }
      assert p.Some? ==> table.live == old(table.live)[id := p.value];
      if p.Some? && p.value == |producers| {
        AddProducer();
      }
    }

    /** create and add_producer: the new sub-queue goes in front of the list. */
    method AddProducer()
      requires ValidFor(|producers| + 1)
      modifies this`producers, this`Repr
      ensures Valid() && fresh(Repr - old(Repr))
      ensures |producers| == |old(producers)| + 1 && old(producers) <= producers
      ensures producers[|old(producers)|].Contents() == []
    {
      hide P.ImplicitProducer.Valid, P.ImplicitProducer.Contents, H.ProducerTable.Valid;
      label Before:
      var added := new P.ImplicitProducer();
      table.StaysValid@Before();
      forall i | 0 <= i < |producers|
        ensures producers[i].Valid()
      {
        producers[i].StaysValid@Before();
      }
      producers := producers + [added];
      Repr := Repr + {added, added.index};
    }

    method EnqueueTo(j: nat, v: Value) returns (ok: bool)
      requires Valid() && j < |producers|
      modifies Repr
      ensures Valid() && fresh(Repr - old(Repr)) && producers == old(producers)
      ensures table.live == old(table.live) && table.refused == old(table.refused)
      ensures producers[j].Contents() == old(producers[j].Contents()) + if ok then [v] else []
      ensures !ok ==> producers[j].refused > old(producers[j].refused) || producers[j].Crowded(1) || !producers[j].indexed
      ensures forall i :: 0 <= i < |producers| && i != j ==> producers[i].Contents() == old(producers[i].Contents())
    {
      hide P.ImplicitProducer.Valid, P.ImplicitProducer.Contents, H.ProducerTable.Valid;
      assert forall a <- table.Arrays() :: a != producers[j];
      label Before:
      ok := producers[j].Enqueue(v);
      table.StaysValid@Before();
      Repr := Repr + {producers[j].index};
    }

    method EnqueueBulkTo(j: nat, vals: seq<Value>) returns (ok: bool)
      requires Valid() && j < |producers|
      modifies Repr
      ensures Valid() && fresh(Repr - old(Repr)) && producers == old(producers)
      ensures table.live == old(table.live) && table.refused == old(table.refused)
      ensures producers[j].Contents() == old(producers[j].Contents()) + if ok then vals else []
      ensures !ok ==> producers[j].refused > old(producers[j].refused) || producers[j].Crowded(|vals|) || !producers[j].indexed
      ensures forall i :: 0 <= i < |producers| && i != j ==> producers[i].Contents() == old(producers[i].Contents())
    {
      hide P.ImplicitProducer.Valid, P.ImplicitProducer.Contents, H.ProducerTable.Valid;
      assert forall a <- table.Arrays() :: a != producers[j];
      label Before:
      ok := producers[j].EnqueueBulk(vals);
      table.StaysValid@Before();
      Repr := Repr + {producers[j].index};
    }

    /** inner_enqueue */
    method Enqueue(id: Id, v: Value) returns (ok: bool, ghost lane: nat)
      requires Valid()
      modifies Repr
      ensures Valid() && fresh(Repr - old(Repr)) && Appended(id, [v], ok, lane)
    {
      hide P.ImplicitProducer.Valid, P.ImplicitProducer.Contents, H.ProducerTable.Valid, ValidFor;
      lane := 0;
      var p := GetProducer(id);
      if p.None? {
        return false, lane;
      }
      lane := p.value;
      ok := EnqueueTo(p.value, v);
    }

    /** inner_enqueue_bulk */
    method EnqueueBulk(id: Id, vals: seq<Value>) returns (ok: bool, ghost lane: nat)
      requires Valid()
      modifies Repr
      ensures Valid() && fresh(Repr - old(Repr)) && Appended(id, vals, ok, lane)
    {
      hide P.ImplicitProducer.Valid, P.ImplicitProducer.Contents, H.ProducerTable.Valid, ValidFor;
      lane := 0;
      var p := GetProducer(id);
      if p.None? {
        return false, lane;
      }
      lane := p.value;
      ok := EnqueueBulkTo(p.value, vals);
    }

    /** The thread that has this id exits: its sub-queue keeps its elements and can be taken over. */
    method ThreadExit(id: Id)
      requires Valid() && id in table.live
      modifies Repr
      ensures Valid() && Repr == old(Repr) && table.live == old(table.live) - {id} && producers == old(producers) && Lanes() == old(Lanes())
    {
      hide P.ImplicitProducer.Valid, H.ProducerTable.Valid;
      ghost var lanes := Lanes();
      var found, depth := table.Find(id);
      label Before:
      table.Exit(id, found.value);
      forall i | 0 <= i < |producers|
        ensures producers[i].Valid() && producers[i].Contents() == old@Before(producers[i].Contents())
      {
        producers[i].StaysValid@Before();
      }
      assert Lanes() == lanes;
    }

    /** Takes what it can, up to max, from one sub-queue. */
    method DrainProducer(j: nat, max: nat) returns (more: seq<Value>)
      requires Valid() && j < |producers|
      modifies Repr
      ensures Valid() && SameThreads() && |more| == Min(max, |old(producers[j].Contents())|)
      ensures old(producers[j].Contents()) == more + producers[j].Contents()
      ensures forall i :: 0 <= i < |producers| && i != j ==> producers[i].Contents() == old(producers[i].Contents())
    {
      hide P.ImplicitProducer.Valid, H.ProducerTable.Valid;
      var producer := producers[j];
      assert forall a <- table.Arrays() :: a != producer;
      label Before:
      more := producer.DequeueBulk(max);
      table.StaysValid@Before();
    }

    /** The sub-queue that is k-th in the list. */
    method DrainLane(k: nat, max: nat) returns (more: seq<Value>)
      requires Valid() && k < |producers|
      modifies Repr
      ensures Valid() && SameThreads()
      ensures |more| == Min(max, |old(Lanes())[k]|) && more == old(Lanes())[k][..|more|]
      ensures Lanes() == old(Lanes())[k := old(Lanes())[k][|more|..]]
    {
      hide P.ImplicitProducer.Valid, P.ImplicitProducer.Contents, H.ProducerTable.Valid, LanesOf, Valid;
      ghost var lanes := Lanes();
      more := DrainProducer(|producers| - 1 - k, max);
      assert lanes[k] == more + producers[|producers| - 1 - k].Contents();
      assert Lanes() == lanes[k := lanes[k][|more|..]];
    }

    /** try_dequeue_bulk: the newest sub-queue first, each in its own order, until there is enough. */
    method TryDequeueBulk(max: nat) returns (out: seq<Value>, ghost taken: seq<seq<Value>>)
      requires Valid()
      modifies Repr
      ensures Valid() && SameThreads()
      ensures Q.Split(old(Lanes()), taken, Lanes()) && Q.InTurn(taken, Lanes()) && out == Q.Concat(taken)
      ensures |out| == Min(max, Q.Total(old(Lanes())))
    {
      hide P.ImplicitProducer.Valid, H.ProducerTable.Valid, Valid, LanesOf, Q.Concat, Q.Total, Q.InTurn;
      ghost var before := Lanes();
      out, taken := [], seq(|producers|, _ => []);
      Q.NothingTaken(before);
      var i := 0;
      while i < |producers|
        invariant i <= |producers| && Valid() && |out| <= max && (|out| == max ==> i == 0)
        invariant SameThreads()
        invariant Q.Progress(before, taken, Lanes(), i) && Q.InTurn(taken, Lanes()) && out == Q.Concat(taken)
      {
        ghost var lanes := Lanes();
        var more := DrainLane(i, max - |out|);
        Q.TakeLane(before, taken, lanes, i, |more|);
        out, taken := out + more, taken[i := more];
        i := i + 1;
        if |out| == max {
          break;
        }
      }
      Q.DrainTotal(before, taken, Lanes(), max);
    }
  }

  ghost function LanesOf(ps: seq<P.ImplicitProducer>): (l: seq<seq<Value>>)
    reads ObjectsOf(ps)
    ensures |l| == |ps|
    ensures forall k :: 0 <= k < |l| ==> l[k] == ps[|ps| - 1 - k].Contents()
  {
    hide P.ImplicitProducer.Contents, P.ImplicitProducer.Valid;
    seq(|ps|, k requires 0 <= k < |ps| reads ObjectsOf(ps) => ps[|ps| - 1 - k].Contents())
  }
}
