/** The table that gives every thread its own producer: open addressing with linear probing, a new table of
    twice the size in front of the old ones when half full, and lookups that move an entry forward when they
    find it in an old table. Calls are taken one after another. */
module ProducerHash {
  import opened Wrappers
  import opened Sets

  type Id = nat
  type Producer = nat

  const INITIAL_SIZE := 32

  /** A key-value pair: never used, left behind by a thread that exited, or a live thread's. */
  datatype Slot = Empty | Tombstone | Used(id: Id, producer: Producer)

  // ---------------------------------------------------------------- one table

  /** How many probes lead from slot a to slot b. */
  function Distance(a: nat, b: nat, capacity: nat): int {
    if a <= b then b - a else b + capacity - a
  }

  function Next(index: nat, capacity: nat): nat {
    if index + 1 == capacity then 0 else index + 1
  }

  predicate Holds(s: Slot, id: Id) {
    s.Used? && s.id == id
  }

  ghost predicate Has(t: seq<Slot>, id: Id) {
    exists j :: 0 <= j < |t| && Holds(t[j], id)
  }

  /** Every slot on the way from the hash of its key to an entry is taken, so probing cannot miss it. */
  ghost predicate Reachable(t: seq<Slot>, hash: Id -> nat, j: nat)
    requires 0 < |t| && j < |t|
  {
    t[j].Used? ==>
      forall k :: 0 <= k < |t| && Distance(hash(t[j].id) % |t|, k, |t|) < Distance(hash(t[j].id) % |t|, j, |t|) ==> !t[k].Empty?
  }

  ghost predicate TableOk(t: seq<Slot>, hash: Id -> nat) {
    && 0 < |t|
    && (forall j :: 0 <= j < |t| ==> Reachable(t, hash, j))
    && (forall j, k :: 0 <= j < k < |t| && t[j].Used? ==> !Holds(t[k], t[j].id))
    && (exists j :: 0 <= j < |t| && t[j].Empty?)
  }

  /** How many slots are taken, by live threads or tombstones. */
  ghost function Taken(t: seq<Slot>): nat {
    if t == [] then 0 else Taken(t[..|t| - 1]) + if t[|t| - 1].Empty? then 0 else 1
  }

  lemma {:induction false} TakenUpdate(t: seq<Slot>, j: nat, s: Slot)
    requires j < |t| && !s.Empty?
    ensures Taken(t[j := s]) == Taken(t) + if t[j].Empty? then 1 else 0
  {
    var last := |t| - 1;
    if j < last {
      TakenUpdate(t[..last], j, s);
      assert t[j := s][..last] == t[..last][j := s];
    } else {
      assert t[j := s][..last] == t[..last];
    }
  }

  lemma {:induction false} SomeEmpty(t: seq<Slot>)
    requires Taken(t) < |t|
    ensures exists j :: 0 <= j < |t| && t[j].Empty?
  {
    if !t[|t| - 1].Empty? {
      SomeEmpty(t[..|t| - 1]);
      var j :| 0 <= j < |t| - 1 && t[..|t| - 1][j].Empty?;
      assert t[j].Empty?;
    }
  }

  lemma {:induction false} NoneTaken(t: seq<Slot>)
    requires forall j :: 0 <= j < |t| ==> t[j].Empty?
    ensures Taken(t) == 0
  {
    if t != [] {
      NoneTaken(t[..|t| - 1]);
    }
  }

  /** Writing an entry in the first free slot that probing meets. */
  lemma InsertKeepsTable(t: seq<Slot>, hash: Id -> nat, id: Id, p: Producer, j: nat)
    requires TableOk(t, hash) && !Has(t, id) && j < |t| && !t[j].Used?
    requires forall k :: 0 <= k < |t| && Distance(hash(id) % |t|, k, |t|) < Distance(hash(id) % |t|, j, |t|) ==> t[k].Used?
    requires Taken(t) + 1 < |t|
    ensures TableOk(t[j := Used(id, p)], hash)
  {
    var t' := t[j := Used(id, p)];
    TakenUpdate(t, j, Used(id, p));
    SomeEmpty(t');
    forall k | 0 <= k < |t'|
      ensures Reachable(t', hash, k)
    {
      assert Reachable(t, hash, k);
    }
    forall i, k | 0 <= i < k < |t'| && t'[i].Used?
      ensures !Holds(t'[k], t'[i].id)
    {
      assert i == j ==> !Holds(t[k], id);
      assert k == j ==> !Holds(t[i], id);
    }
  }

  lemma RemoveKeepsTable(t: seq<Slot>, hash: Id -> nat, j: nat)
    requires TableOk(t, hash) && j < |t| && t[j].Used?
    ensures TableOk(t[j := Tombstone], hash) && !Has(t[j := Tombstone], t[j].id)
    ensures Taken(t[j := Tombstone]) == Taken(t)
  {
    var t' := t[j := Tombstone];
    TakenUpdate(t, j, Tombstone);
    forall k | 0 <= k < |t'|
      ensures Reachable(t', hash, k)
    {
      assert Reachable(t, hash, k);
    }
    var e :| 0 <= e < |t| && t[e].Empty?;
    assert t'[e].Empty?;
  }

  /** Looks for an id; not an infinite loop because some slot is empty. */
  method Probe(t: array<Slot>, hash: Id -> nat, id: Id) returns (found: bool, index: nat)
    requires TableOk(t[..], hash)
    ensures index < t.Length
    ensures found ==> Holds(t[index], id)
    ensures !found ==> !Has(t[..], id)
  {
    ghost var e :| 0 <= e < t.Length && t[..][e].Empty?;
    index := hash(id) % t.Length;
    ghost var start := index;
    while true
      invariant start == hash(id) % t.Length && index < t.Length
      invariant forall k :: 0 <= k < t.Length && Distance(start, k, t.Length) < Distance(start, index, t.Length) ==>
                  !t[k].Empty? && !Holds(t[k], id)
      decreases Distance(index, e, t.Length)
    {
      if Holds(t[index], id) {
        return true, index;
      }
      if t[index].Empty? {
        NotBehindEmpty(t[..], hash, id, index);
        return false, index;
      }
      NextIsFurther(start, index, t.Length);
      NextIsCloser(index, e, t.Length);
      index := Next(index, t.Length);
    }
  }

  lemma NotBehindEmpty(t: seq<Slot>, hash: Id -> nat, id: Id, index: nat)
    requires TableOk(t, hash) && index < |t| && t[index].Empty?
    requires forall k :: 0 <= k < |t| && Distance(hash(id) % |t|, k, |t|) < Distance(hash(id) % |t|, index, |t|) ==> !Holds(t[k], id)
    ensures !Has(t, id)
  {
    forall j | 0 <= j < |t|
      ensures !Holds(t[j], id)
    {
      assert Reachable(t, hash, j);
    }
  }

  lemma NextIsFurther(start: nat, index: nat, capacity: nat)
    requires start < capacity && index < capacity && Next(index, capacity) != start
    ensures forall k :: 0 <= k < capacity && Distance(start, k, capacity) < Distance(start, Next(index, capacity), capacity) ==>
              k == index || Distance(start, k, capacity) < Distance(start, index, capacity)
  {
  }

  lemma NextIsCloser(index: nat, e: nat, capacity: nat)
    requires index < capacity && e < capacity && index != e
    ensures 0 <= Distance(Next(index, capacity), e, capacity) < Distance(index, e, capacity)
  {
  }

  /** Writes an entry in the first slot from the hash on that no live thread has: one that is empty, or a
      tombstone. */
  method Claim(t: array<Slot>, hash: Id -> nat, id: Id, p: Producer) returns (reused: bool, ghost at: nat)
    requires TableOk(t[..], hash) && !Has(t[..], id) && Taken(t[..]) + 1 < t.Length
    modifies t
    ensures at < t.Length && !old(t[..])[at].Used? && t[..] == old(t[..])[at := Used(id, p)]
    ensures reused == old(t[..])[at].Tombstone?
    ensures TableOk(t[..], hash)
  {
    ghost var e :| 0 <= e < t.Length && t[..][e].Empty?;
    var index: nat := hash(id) % t.Length;
    ghost var start := index;
    while t[index].Used?
      invariant start == hash(id) % t.Length && index < t.Length && t[..] == old(t[..])
      invariant forall k :: 0 <= k < t.Length && Distance(start, k, t.Length) < Distance(start, index, t.Length) ==> t[k].Used?
      decreases Distance(index, e, t.Length)
    {
      NextIsFurther(start, index, t.Length);
      NextIsCloser(index, e, t.Length);
      index := Next(index, t.Length);
    }
    InsertKeepsTable(t[..], hash, id, p, index);
    reused := t[index].Tombstone?;
    at := index;
    t[index] := Used(id, p);
  }

  // ---------------------------------------------------------------- the chain of tables

  /** Live threads that the newest table does not have. */
  ghost function Missing(live: map<Id, Producer>, t: seq<Slot>): set<Id> {
    set id <- live | !Has(t, id)
  }

  /** Every live thread is in some table, and every entry is a live thread's, with its producer. */
  ghost predicate Agree(live: map<Id, Producer>, chain: seq<seq<Slot>>) {
    && (forall id <- live :: exists i :: 0 <= i < |chain| && Has(chain[i], id))
    && (forall i :: 0 <= i < |chain| ==> EntriesOf(live, chain[i]))
  }

  ghost predicate EntriesOf(live: map<Id, Producer>, t: seq<Slot>) {
    forall j :: 0 <= j < |t| && t[j].Used? ==> t[j].id in live && live[t[j].id] == t[j].producer
  }

  ghost predicate Distinct(live: map<Id, Producer>) {
    forall a, b :: a in live && b in live && a != b ==> live[a] != live[b]
  }

  /** A producer is recyclable exactly when no live thread has it. */
  ghost predicate ActiveOk(live: map<Id, Producer>, inactive: seq<bool>) {
    && (forall id <- live :: live[id] < |inactive| && !inactive[live[id]])
    && (forall p :: 0 <= p < |inactive| && !inactive[p] ==> exists id <- live :: live[id] == p)
  }

  /** The one counter reserves a slot in the newest table for every thread that is still to move there. */
  ghost predicate CountOk(live: map<Id, Producer>, newest: seq<Slot>, count: nat) {
    INITIAL_SIZE <= |newest| && Taken(newest) + |Missing(live, newest)| <= count < |newest| / 2
  }

  ghost predicate ChainOk(live: map<Id, Producer>, chain: seq<seq<Slot>>, count: nat, inactive: seq<bool>, hash: Id -> nat) {
    && chain != []
    && (forall i :: 0 <= i < |chain| ==> TableOk(chain[i], hash))
    && Agree(live, chain) && Distinct(live) && ActiveOk(live, inactive)
    && CountOk(live, chain[|chain| - 1], count)
  }

  /** Moving an entry to the newest table. */
  lemma MigrateKeeps(live: map<Id, Producer>, chain: seq<seq<Slot>>, count: nat, inactive: seq<bool>, hash: Id -> nat,
                     id: Id, j: nat, newest: seq<Slot>)
    requires ChainOk(live, chain, count, inactive, hash) && id in live && !Has(chain[|chain| - 1], id)
    requires j < |chain[|chain| - 1]| && !chain[|chain| - 1][j].Used?
    requires newest == chain[|chain| - 1][j := Used(id, live[id])] && TableOk(newest, hash)
    ensures ChainOk(live, chain[|chain| - 1 := newest], count, inactive, hash)
  {
    hide TableOk, Agree, Has, Distinct, ActiveOk, Missing, Taken;
    var last := |chain| - 1;
    TakenUpdate(chain[last], j, Used(id, live[id]));
    MissingAfterInsert(live, chain[last], j, id, live[id]);
    AgreeAfterInsert(live, live, chain, j, id, newest);
  }

  lemma MissingAfterInsert(live: map<Id, Producer>, t: seq<Slot>, j: nat, id: Id, p: Producer)
    requires j < |t| && !t[j].Used? && !Has(t, id)
    ensures id in live ==> |Missing(live, t[j := Used(id, p)])| == |Missing(live, t)| - 1
    ensures id !in live ==> Missing(live[id := p], t[j := Used(id, p)]) == Missing(live, t)
  {
    hide Has;
    HasAfterInsert(t, j, id, p);
    var t' := t[j := Used(id, p)];
    if id in live {
      forall x: Id
        ensures x in Missing(live, t') <==> x in Missing(live, t) && x != id
      {
        assert Has(t', x) <==> Has(t, x) || x == id;
      }
      assert Missing(live, t') == Missing(live, t) - {id};
    }
  }

  lemma HasAfterInsert(t: seq<Slot>, j: nat, id: Id, p: Producer)
    requires j < |t| && !t[j].Used?
    ensures forall x: Id :: Has(t[j := Used(id, p)], x) <==> Has(t, x) || x == id
  {
    var t' := t[j := Used(id, p)];
    assert Holds(t'[j], id);
    forall x: Id
      ensures Has(t', x) <==> Has(t, x) || x == id
    {
      if Has(t, x) {
        var k :| 0 <= k < |t| && Holds(t[k], x);
        assert Holds(t'[k], x);
      }
      if Has(t', x) && x != id {
        var k :| 0 <= k < |t'| && Holds(t'[k], x);
        assert Holds(t[k], x);
      }
    }
  }

  lemma AgreeAfterInsert(live: map<Id, Producer>, live': map<Id, Producer>, chain: seq<seq<Slot>>, j: nat, id: Id, newest: seq<Slot>)
    requires chain != [] && Agree(live, chain) && id in live' && live' == live[id := live'[id]]
    requires id in live ==> live'[id] == live[id]
    requires j < |chain[|chain| - 1]| && !chain[|chain| - 1][j].Used?
    requires newest == chain[|chain| - 1][j := Used(id, live'[id])]
    requires id !in live ==> forall i :: 0 <= i < |chain| ==> !Has(chain[i], id)
    ensures Agree(live', chain[|chain| - 1 := newest])
  {
    var last, chain' := |chain| - 1, chain[|chain| - 1 := newest];
    HasAfterInsert(chain[last], j, id, live'[id]);
    forall x | x in live'
      ensures exists i :: 0 <= i < |chain'| && Has(chain'[i], x)
    {
      if x == id {
        assert Holds(newest[j], id);
        assert chain'[last] == newest;
        assert Has(chain'[last], x);
      } else {
        var i :| 0 <= i < |chain| && Has(chain[i], x);
        if i == last {
          assert Has(chain[last], x);
          assert Has(chain[last][j := Used(id, live'[id])], x);
        }
        assert Has(chain'[i], x);
      }
    }
    forall i | 0 <= i < |chain'|
      ensures EntriesOf(live', chain'[i])
    {
      assert EntriesOf(live, chain[i]);
    }
  }

  /** A new thread's entry goes in the newest table; a reused tombstone was counted already. */
  lemma InsertKeeps(live: map<Id, Producer>, chain: seq<seq<Slot>>, count: nat, inactive: seq<bool>, hash: Id -> nat,
                    id: Id, p: Producer, inactive': seq<bool>, j: nat, newest: seq<Slot>)
    requires chain != [] && (forall i :: 0 <= i < |chain| ==> TableOk(chain[i], hash))
    requires Agree(live, chain) && Distinct(live) && ActiveOk(live, inactive) && id !in live
    requires INITIAL_SIZE <= |chain[|chain| - 1]|
    requires Taken(chain[|chain| - 1]) + |Missing(live, chain[|chain| - 1])| < count < |chain[|chain| - 1]| / 2
    requires forall x <- live :: live[x] != p
    requires (p == |inactive| && inactive' == inactive + [false]) || (p < |inactive| && inactive' == inactive[p := false])
    requires j < |chain[|chain| - 1]| && !chain[|chain| - 1][j].Used?
    requires newest == chain[|chain| - 1][j := Used(id, p)] && TableOk(newest, hash)
    ensures ChainOk(live[id := p], chain[|chain| - 1 := newest],
                    if chain[|chain| - 1][j].Tombstone? then count - 1 else count, inactive', hash)
  {
    hide TableOk, Agree, Has, Missing, Taken, ActiveOk;
    var last, live' := |chain| - 1, live[id := p];
    TakenUpdate(chain[last], j, Used(id, p));
    NotInTables(live, chain, id);
    MissingAfterInsert(live, chain[last], j, id, p);
    AgreeAfterInsert(live, live', chain, j, id, newest);
    ActiveAfterInsert(live, inactive, id, p, inactive');
  }

  lemma ActiveAfterInsert(live: map<Id, Producer>, inactive: seq<bool>, id: Id, p: Producer, inactive': seq<bool>)
    requires ActiveOk(live, inactive) && id !in live && forall x <- live :: live[x] != p
    requires (p == |inactive| && inactive' == inactive + [false]) || (p < |inactive| && inactive' == inactive[p := false])
    ensures ActiveOk(live[id := p], inactive')
  {
    var live' := live[id := p];
    forall q | 0 <= q < |inactive'| && !inactive'[q]
      ensures exists x <- live' :: live'[x] == q
    {
      if q == p {
        assert live'[id] == q;
      } else {
        var x :| x in live && live[x] == q;
        assert live'[x] == q;
      }
    }
  }

  lemma NotInTables(live: map<Id, Producer>, chain: seq<seq<Slot>>, id: Id)
    requires Agree(live, chain) && id !in live
    ensures forall i :: 0 <= i < |chain| ==> !Has(chain[i], id)
  {
    forall i | 0 <= i < |chain|
      ensures !Has(chain[i], id)
    {
      assert EntriesOf(live, chain[i]);
    }
  }

  /** A thread that exits leaves a tombstone in every table that has it. */
  lemma ExitKeeps(live: map<Id, Producer>, chain: seq<seq<Slot>>, count: nat, inactive: seq<bool>, hash: Id -> nat,
                  id: Id, chain': seq<seq<Slot>>)
    requires ChainOk(live, chain, count, inactive, hash) && id in live && |chain'| == |chain|
    requires forall i :: 0 <= i < |chain| ==> Removed(chain[i], chain'[i], id) && TableOk(chain'[i], hash)
    ensures live[id] < |inactive|
    ensures ChainOk(live - {id}, chain', count, inactive[live[id] := true], hash)
  {
    hide TableOk, Has, Taken, ActiveOk, Missing;
    var live', last := live - {id}, |chain| - 1;
    ActiveAfterExit(live, inactive, id);
    forall x | x in live'
      ensures exists i :: 0 <= i < |chain'| && Has(chain'[i], x)
    {
      var i :| 0 <= i < |chain| && Has(chain[i], x);
      assert Removed(chain[i], chain'[i], id);
      assert Has(chain'[i], x);
    }
    forall i | 0 <= i < |chain'|
      ensures EntriesOf(live', chain'[i])
    {
      assert EntriesOf(live, chain[i]);
    }
    MissingAfterExit(live, chain[last], chain'[last], id);
  }

  lemma MissingAfterExit(live: map<Id, Producer>, t: seq<Slot>, t': seq<Slot>, id: Id)
    requires Removed(t, t', id)
    ensures |Missing(live - {id}, t')| <= |Missing(live, t)|
  {
    hide Has;
    assert Missing(live - {id}, t') == Missing(live, t) - {id};
  }

  lemma ActiveAfterExit(live: map<Id, Producer>, inactive: seq<bool>, id: Id)
    requires ActiveOk(live, inactive) && Distinct(live) && id in live
    ensures live[id] < |inactive| && ActiveOk(live - {id}, inactive[live[id] := true])
  {
    var live', inactive' := live - {id}, inactive[live[id] := true];
    forall q | 0 <= q < |inactive'| && !inactive'[q]
      ensures exists x <- live' :: live'[x] == q
    {
      var x :| x in live && live[x] == q;
      assert live'[x] == q;
    }
  }

  /** t' is t without id. */
  ghost predicate Removed(t: seq<Slot>, t': seq<Slot>, id: Id) {
    && |t'| == |t| && Taken(t') == Taken(t)
    && (forall x: Id :: Has(t', x) <==> Has(t, x) && x != id)
    && (forall j :: 0 <= j < |t'| && t'[j].Used? ==> t'[j] == t[j] && t'[j].id != id)
  }

  lemma RemoveSlot(t: seq<Slot>, hash: Id -> nat, j: nat)
    requires TableOk(t, hash) && j < |t| && t[j].Used?
    ensures Removed(t, t[j := Tombstone], t[j].id)
  {
    var t', id := t[j := Tombstone], t[j].id;
    TakenUpdate(t, j, Tombstone);
    forall x: Id
      ensures Has(t', x) <==> Has(t, x) && x != id
    {
      if Has(t, x) && x != id {
        var k :| 0 <= k < |t| && Holds(t[k], x);
        assert Holds(t'[k], x);
      }
      if Has(t', x) {
        var k :| 0 <= k < |t'| && Holds(t'[k], x);
        assert Holds(t[k], x);
        OnlyOne(t, hash, j, k, id);
      }
    }
    forall k: nat | k < |t'| && t'[k].Used?
      ensures t'[k].id != id
    {
      OnlyOne(t, hash, j, k, id);
    }
  }

  lemma OnlyOne(t: seq<Slot>, hash: Id -> nat, j: nat, k: nat, id: Id)
    requires TableOk(t, hash) && j < |t| && k < |t|
    ensures Holds(t[j], id) && Holds(t[k], id) ==> j == k
  {
  }

  lemma NothingRemoved(t: seq<Slot>, id: Id)
    requires !Has(t, id)
    ensures Removed(t, t, id)
  {
    forall j | 0 <= j < |t| && t[j].Used?
      ensures t[j].id != id
    {
      assert !Holds(t[j], id);
    }
  }

  lemma ActiveIs(live: map<Id, Producer>, chain: seq<seq<Slot>>, count: nat, inactive: seq<bool>, hash: Id -> nat)
    requires ChainOk(live, chain, count, inactive, hash)
    ensures ActiveOk(live, inactive)
  {
  }

  lemma NotTaken(live: map<Id, Producer>, inactive: seq<bool>, p: Producer)
    requires ActiveOk(live, inactive) && (p >= |inactive| || inactive[p])
    ensures forall x <- live :: live[x] != p
  {
  }

  lemma HoldsHas(t: seq<Slot>, j: nat, id: Id)
    requires j < |t| && Holds(t[j], id)
    ensures Has(t, id)
  {
  }

  lemma NotFound(live: map<Id, Producer>, chain: seq<seq<Slot>>, id: Id)
    requires Agree(live, chain) && forall k :: 0 <= k < |chain| ==> !Has(chain[k], id)
    ensures id !in live
  {
  }

  // ---- growth

  ghost function Ids(t: seq<Slot>): set<Id> {
    if t == [] then {} else Ids(t[..|t| - 1]) + if t[|t| - 1].Used? then {t[|t| - 1].id} else {}
  }

  lemma {:induction false} IdsBound(t: seq<Slot>)
    ensures |Ids(t)| <= Taken(t)
  {
    if t != [] {
      IdsBound(t[..|t| - 1]);
    }
  }

  lemma {:induction false} IdsHas(t: seq<Slot>, id: Id)
    ensures Has(t, id) ==> id in Ids(t)
  {
    if Has(t, id) {
      var j :| 0 <= j < |t| && Holds(t[j], id);
      if j < |t| - 1 {
        assert Holds(t[..|t| - 1][j], id);
        IdsHas(t[..|t| - 1], id);
      }
    }
  }

  /** The count covers all live threads. */
  lemma LiveBound(live: map<Id, Producer>, t: seq<Slot>)
    ensures |live.Keys| <= Taken(t) + |Missing(live, t)|
  {
    forall id | id in live
      ensures id in Ids(t) + Missing(live, t)
    {
      IdsHas(t, id);
    }
    SubsetSize(live.Keys, Ids(t) + Missing(live, t));
    IdsBound(t);
  }

  /** The one counter stays at or above the number of live threads and below half the newest table, so there is
      room for every thread that is still to move there. */
  lemma CountCoversLive(live: map<Id, Producer>, chain: seq<seq<Slot>>, count: nat, inactive: seq<bool>, hash: Id -> nat)
    requires ChainOk(live, chain, count, inactive, hash)
    ensures |live.Keys| <= count < |chain[|chain| - 1]| / 2
    ensures Taken(chain[|chain| - 1]) + |Missing(live, chain[|chain| - 1])| < |chain[|chain| - 1]|
  {
    LiveBound(live, chain[|chain| - 1]);
  }

  lemma GrowKeeps(live: map<Id, Producer>, chain: seq<seq<Slot>>, count: nat, inactive: seq<bool>, hash: Id -> nat, t: seq<Slot>)
    requires ChainOk(live, chain, count, inactive, hash) && count + 1 < |t| / 2 && INITIAL_SIZE <= |t|
    requires forall j :: 0 <= j < |t| ==> t[j].Empty?
    ensures ChainOk(live, chain + [t], count, inactive, hash)
  {
    hide Taken, ActiveOk, Distinct;
    var chain' := chain + [t];
    NoneTaken(t);
    SomeEmpty(t);
    LiveBound(live, chain[|chain| - 1]);
    assert Missing(live, t) == live.Keys;
    forall id | id in live
      ensures exists i :: 0 <= i < |chain'| && Has(chain'[i], id)
    {
      var i :| 0 <= i < |chain| && Has(chain[i], id);
      assert Has(chain'[i], id);
    }
  }

  // ---------------------------------------------------------------- the queue's part

  lemma InitOk(t: seq<Slot>, hash: Id -> nat)
    requires |t| == INITIAL_SIZE && forall j :: 0 <= j < |t| ==> t[j].Empty?
    ensures ChainOk(map[], [t], 0, [], hash)
  {
    NoneTaken(t);
    SomeEmpty(t);
    assert Missing(map[], t) == {};
  }

  ghost function ArraysOf(ts: seq<array<Slot>>): set<object> {
    set i | 0 <= i < |ts| :: ts[i]
  }

  ghost function Snapshot(ts: seq<array<Slot>>): (c: seq<seq<Slot>>)
    reads ArraysOf(ts)
    ensures |c| == |ts| && forall i :: 0 <= i < |ts| ==> c[i] == ts[i][..]
  {
    if ts == [] then []
    else
      assert forall i :: 0 <= i < |ts| - 1 ==> ts[..|ts| - 1][i] == ts[i];
      Snapshot(ts[..|ts| - 1]) + [ts[|ts| - 1][..]]
  }

  /** The list of producers is as long as before, or has gained producer p. */
  predicate Grew(before: nat, after: nat, p: Producer) {
    after == before || (p == before && after == before + 1)
  }

  lemma LiveIsListed(live: map<Id, Producer>, chain: seq<seq<Slot>>, count: nat, inactive: seq<bool>, hash: Id -> nat)
    requires ChainOk(live, chain, count, inactive, hash)
    ensures forall id <- live :: live[id] < |inactive|
  {
  }

  class ProducerTable {
    const hash: Id -> nat
    /** The tables, oldest first; the last is implicitProducerHash. */
    var tables: seq<array<Slot>>
    /** implicitProducerHashCount */
    var count: nat
    /** The list of producers: whether each is free to be taken over. */
    var inactive: seq<bool>
    /** Which thread has which producer. */
    ghost var live: map<Id, Producer>
    /** How often there was no memory. */
    ghost var refused: nat

    twostate predicate Memory(ok: bool)
      reads this
    {
      refused == old(refused) + if ok then 0 else 1
    }

    ghost function Arrays(): set<object>
      reads this`tables
    {
      ArraysOf(tables)
    }

    ghost function Chain(): seq<seq<Slot>>
      reads this`tables, Arrays()
    {
      Snapshot(tables)
    }

    ghost predicate Valid()
      reads this, Arrays()
    {
      && tables != [] && (forall i, j :: 0 <= i < j < |tables| ==> tables[i] != tables[j])
      && ChainOk(live, Chain(), count, inactive, hash)
    }

    /** What happens elsewhere does not matter. */
    twostate lemma StaysValid()
      requires old(Valid()) && unchanged(this) && unchanged(Arrays())
      ensures Valid()
    {
      assert Chain() == old(Chain());
    }

    constructor (hash: Id -> nat)
      ensures Valid() && live == map[] && inactive == [] && fresh(Arrays())
    {
      hide ChainOk, Snapshot;
      this.hash := hash;
      var first := new Slot[INITIAL_SIZE](_ => Empty);
      tables, count, inactive, live, refused := [first], 0, [], map[], 0;
      new;
      assert Chain() == [first[..]];
      InitOk(first[..], hash);
    }

    /** recycle_or_create_producer: an inactive producer, newest first, or a new one if there is memory. */
    method RecycleOrCreate() returns (p: Option<Producer>)
      modifies this`inactive, this`refused
      ensures Memory(p.Some?)
      ensures p.None? ==> inactive == old(inactive)
      ensures forall k :: 0 <= k < |old(inactive)| && (p.Some? ==> p.value < k || p.value == |old(inactive)|) ==> !old(inactive)[k]
      ensures p.Some? ==>
                || (p.value == |old(inactive)| && inactive == old(inactive) + [false])
                || (p.value < |old(inactive)| && old(inactive)[p.value] && inactive == old(inactive)[p.value := false])
    {
      var i := |inactive|;
      while i > 0
        invariant 0 <= i <= |inactive| && inactive == old(inactive) && refused == old(refused)
        invariant forall k :: i <= k < |inactive| ==> !inactive[k]
      {
        i := i - 1;
        if inactive[i] {
          inactive := inactive[i := false];
          return Some(i);
        }
      }
      var memory: bool := *;
      if !memory {
        refused := refused + 1;
        return None;
      }
      p := Some(|inactive|);
      inactive := inactive + [false];
    }

    /** The search through all tables, newest first. */
    method Find(id: Id) returns (p: Option<Producer>, depth: nat)
      requires Valid()
      ensures p.None? ==> id !in live
      ensures p.Some? ==> id in live && live[id] == p.value && depth < |tables|
      ensures p.Some? && depth == 0 ==> Has(Chain()[|tables| - 1], id)
      ensures p.Some? && depth > 0 ==> !Has(Chain()[|tables| - 1], id)
    {
      hide Snapshot, TableOk, Has, ActiveOk, Distinct, CountOk;
      var i := |tables|;
      while i > 0
        invariant 0 <= i <= |tables|
        invariant forall k :: i <= k < |tables| ==> !Has(Chain()[k], id)
      {
        i := i - 1;
        assert Chain()[i] == tables[i][..];
        var found, index := Probe(tables[i], hash, id);
        if found {
          assert EntriesOf(live, Chain()[i]);
          HoldsHas(tables[i][..], index, id);
          return Some(tables[i][..][index].producer), |tables| - 1 - i;
        }
      }
      NotFound(live, Chain(), id);
      return None, 0;
    }

    /** The id has been found in an old table: it moves to the newest. */
    method Migrate(id: Id, p: Producer)
      requires Valid() && id in live && live[id] == p && !Has(Chain()[|tables| - 1], id)
      modifies Arrays()
      ensures Valid() && Has(Chain()[|tables| - 1], id)
    {
      hide TableOk, ActiveOk, Distinct, Agree, Has, Missing, Taken;
      var last := |tables| - 1;
      ghost var chain := Chain();
      assert TableOk(tables[last][..], hash) && chain[last] == tables[last][..];
      SizeOk(chain[last], count, |Missing(live, chain[last])|);
      var reused, j := Claim(tables[last], hash, id, p);
      HasAfterInsert(chain[last], j, id, p);
      MigrateKeeps(live, chain, count, inactive, hash, id, j, tables[last][..]);
      assert Chain() == chain[last := tables[last][..]];
    }

    /** A new thread is being counted. */
    ghost predicate Counting()
      reads this, Arrays()
    {
      && tables != [] && (forall i, j :: 0 <= i < j < |tables| ==> tables[i] != tables[j])
      && 0 < count && ChainOk(live, Chain(), count - 1, inactive, hash)
    }

    method LargerCapacity(least: nat, needed: nat) returns (capacity: nat)
      requires least > 0
      ensures capacity >= least && needed < capacity / 2
    {
      capacity := least;
      while needed >= capacity / 2
        invariant capacity >= least
        decreases 2 * needed + 2 - capacity
      {
        capacity := 2 * capacity;
      }
    }

    /** A larger table in front, if there is memory. */
    method Grow() returns (ok: bool)
      requires Counting()
      modifies this`tables, this`refused
      ensures Memory(ok)
      ensures Counting() && fresh(Arrays() - old(Arrays()))
      ensures ok ==> count < tables[|tables| - 1].Length / 2 && |tables| == |old(tables)| + 1 && old(tables) <= tables
      ensures !ok ==> tables == old(tables)
    {
      hide TableOk, ActiveOk, Distinct, Agree, Has, Missing, Taken, Snapshot;
      ghost var chain := Chain();
      var capacity := LargerCapacity(2 * tables[|tables| - 1].Length, count);
      ok := *;
      if ok {
        var larger := new Slot[capacity](_ => Empty);
        GrowKeeps(live, chain, count - 1, inactive, hash, larger[..]);
        tables := tables + [larger];
        assert Chain() == chain + [larger[..]];
        assert Chain()[|tables| - 1] == larger[..];
        assert forall a <- Arrays() :: a in old(Arrays()) || a == larger;
      } else {
        refused := refused + 1;
        assert Chain() == chain;
      }
    }

    /** Enters a new thread with its producer. */
    method Insert(id: Id, p: Producer, ghost before: seq<bool>)
      requires tables != [] && (forall i, j :: 0 <= i < j < |tables| ==> tables[i] != tables[j])
      requires 0 < count && ChainOk(live, Chain(), count - 1, before, hash) && count < tables[|tables| - 1].Length / 2
      requires id !in live && forall x <- live :: live[x] != p
      requires (p == |before| && inactive == before + [false]) || (p < |before| && inactive == before[p := false])
      modifies this`count, this`live, Arrays()
      ensures Valid() && live == old(live)[id := p] && Has(Chain()[|tables| - 1], id)
    {
      hide TableOk, ActiveOk, Distinct, Agree, Has, Missing, Taken;
      var last := |tables| - 1;
      ghost var chain := Chain();
      assert chain[last] == tables[last][..];
      NotInTables(live, chain, id);
      SizeOk(chain[last], count - 1, |Missing(live, chain[last])|);
      var reused, j := Claim(tables[last], hash, id, p);
      HasAfterInsert(chain[last], j, id, p);
      InsertKeeps(live, chain, count, before, hash, id, p, inactive, j, tables[last][..]);
      assert Chain() == chain[last := tables[last][..]];
      live := live[id := p];
      if reused {
        count := count - 1;
      }
    }

    /** get_or_add_implicit_producer: a live thread always gets its own producer; a new one gets a producer
        that no live thread has, or nothing if memory runs out, and then nothing has changed. */
    method GetOrAdd(id: Id) returns (p: Option<Producer>)
      requires Valid()
      modifies this, Arrays()
      ensures Valid() && fresh(Arrays() - old(Arrays()))
      ensures id in old(live) ==> p == Some(old(live)[id]) && live == old(live) && inactive == old(inactive)
      ensures id !in old(live) && p.Some? ==> live == old(live)[id := p.value] && p.value !in old(live).Values
      ensures p.None? ==> id !in live && live == old(live) && count == old(count) && inactive == old(inactive)
      ensures Memory(p.Some?) && old(tables) <= tables && (id in old(live) ==> tables == old(tables))
      ensures p.Some? ==> Has(Chain()[|tables| - 1], id)
      ensures p.Some? ==> p.value < |inactive| && Grew(|old(inactive)|, |inactive|, p.value)
    {
      hide TableOk, Distinct, Agree, Has, Missing, Taken, Snapshot;
      var depth;
      p, depth := Find(id);
      if p.Some? {
        LiveIsListed(live, Chain(), count, inactive, hash);
        if depth > 0 {
          Migrate(id, p.value);
        }
        return;
      }
      p := Add(id);
    }

    /** Counts a new thread, and sees that the newest table stays less than half full. */
    method MakeRoom() returns (ok: bool)
      requires Valid()
      modifies this`tables, this`count, this`refused
      ensures Memory(ok) && old(tables) <= tables
      ensures |tables| > |old(tables)| ==> old(count) + 1 >= old(tables[|tables| - 1].Length) / 2
      ensures fresh(Arrays() - old(Arrays()))
      ensures ok ==> Counting() && count == old(count) + 1 && count < tables[|tables| - 1].Length / 2
      ensures !ok ==> Valid() && count == old(count)
    {
      hide ChainOk, Snapshot;
      ghost var chain := Chain();
      count := count + 1;
      assert Chain() == chain;
      ok := true;
      if count >= tables[|tables| - 1].Length / 2 {
        ok := Grow();
        if !ok {
          count := count - 1;
          assert Chain() == chain;
          return;
        }
      }
      assert count < tables[|tables| - 1].Length / 2 + tables[|tables| - 1].Length / 4;
    }

    /** The part of get_or_add_implicit_producer for an id that no table has. */
    method Add(id: Id) returns (p: Option<Producer>)
      requires Valid() && id !in live
      modifies this, Arrays()
      ensures Valid() && fresh(Arrays() - old(Arrays()))
      ensures p.Some? ==> live == old(live)[id := p.value] && p.value !in old(live).Values
      ensures p.None? ==> live == old(live) && count == old(count) && inactive == old(inactive)
      ensures Memory(p.Some?) && old(tables) <= tables
      ensures p.Some? ==> Has(Chain()[|tables| - 1], id)
      ensures p.Some? ==> p.value < |inactive| && Grew(|old(inactive)|, |inactive|, p.value)
    {
      hide ChainOk, Snapshot, ActiveOk;
      var ok := MakeRoom();
      if !ok {
        return None;
      }
      p := AddProducer(id);
      if p.None? {
        ghost var chain := Chain();
        count := count - 1;
        assert Chain() == chain;
      }
    }

    /** Gets a producer for a thread that has been counted, and enters it. */
    method AddProducer(id: Id) returns (p: Option<Producer>)
      requires Counting() && id !in live && count < tables[|tables| - 1].Length / 2
      modifies this`inactive, this`count, this`live, this`refused, Arrays()
      ensures Memory(p.Some?)
      ensures p.Some? ==> Has(Chain()[|tables| - 1], id)
      ensures p.Some? ==> Valid() && live == old(live)[id := p.value] && p.value !in old(live).Values
      ensures p.None? ==> Counting() && live == old(live) && count == old(count) && inactive == old(inactive)
      ensures p.Some? ==> p.value < |inactive| && Grew(|old(inactive)|, |inactive|, p.value)
    {
      hide ChainOk, Snapshot, ActiveOk;
      ghost var chain := Chain();
      ActiveIs(live, chain, count - 1, inactive, hash);
      ghost var before := inactive;
      p := RecycleOrCreate();
      assert Chain() == chain;
      if p.Some? {
        NotTaken(live, before, p.value);
        Insert(id, p.value, before);
      }
    }

    /** implicit_producer_thread_exited: a tombstone in every table that has the id, newest first, and the
        producer can be taken over. */
    method Exit(id: Id, p: Producer)
      requires Valid() && id in live && live[id] == p
      modifies this`inactive, this`live, Arrays()
      ensures Valid() && live == old(live) - {id} && p < |old(inactive)| && inactive == old(inactive)[p := true]
    {
      hide TableOk, ActiveOk, Distinct, Agree, Has, Missing, Taken, CountOk, Removed, Snapshot;
      ghost var chain := Chain();
      var i := |tables|;
      while i > 0
        invariant 0 <= i <= |tables| && live == old(live) && inactive == old(inactive)
        invariant forall k :: 0 <= k < i ==> Chain()[k] == chain[k]
        invariant forall k :: i <= k < |tables| ==> Removed(chain[k], Chain()[k], id) && TableOk(Chain()[k], hash)
      {
        i := i - 1;
        RemoveAt(i, id);
      }
      ghost var chain' := Chain();
      ExitKeeps(live, chain, count, inactive, hash, id, chain');
      live := live - {id};
      inactive := inactive[p := true];
      assert Chain() == chain';
    }

    method RemoveAt(i: nat, id: Id)
      requires i < |tables| && TableOk(tables[i][..], hash)
      requires (forall j, k :: 0 <= j < k < |tables| ==> tables[j] != tables[k])
      modifies tables[i]
      ensures |Chain()| == |tables| && Removed(old(Chain())[i], Chain()[i], id) && TableOk(Chain()[i], hash)
      ensures forall k :: 0 <= k < |tables| && k != i ==> Chain()[k] == old(Chain())[k]
    {
      hide TableOk, Removed;
      Remove(tables[i], id);
    }

    method Remove(t: array<Slot>, id: Id)
      requires TableOk(t[..], hash)
      modifies t
      ensures Removed(old(t[..]), t[..], id) && TableOk(t[..], hash)
    {
      var found, index := Probe(t, hash, id);
      if found {
        RemoveKeepsTable(t[..], hash, index);
        RemoveSlot(t[..], hash, index);
        assert t[..][index].id == id;
        t[index] := Tombstone;
        assert t[..] == old(t[..])[index := Tombstone];
      } else {
        NothingRemoved(t[..], id);
      }
    }
  }

  lemma SizeOk(t: seq<Slot>, count: nat, missing: nat)
    requires INITIAL_SIZE <= |t| && Taken(t) + missing <= count < |t| / 2
    ensures Taken(t) + 1 < |t|
  {
  }
}
