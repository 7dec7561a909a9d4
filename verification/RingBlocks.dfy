/** What the consumers and the producer keep about blocks: who owns which block, how many of its elements
    are done, and what its cells hold. */
module RingBlocks {
  import opened Wrappers
  import opened Sets
  import opened Words
  import opened BlockRing
  import opened RingIndex

  ghost function Find(held: map<nat, BlockId>, b: int): Option<BlockId> {
    if b >= 0 && b in held then Some(held[b]) else None
  }

  // ---------------------------------------------------------------- the values in the ring

  ghost predicate ValueOk(h: Header, values: seq<Option<BlockId>>, held: map<nat, BlockId>, b: int) {
    EntryOf(h, b) < |values| && values[EntryOf(h, b)] == Find(held, b)
  }

  /** Every entry that is in place points at its block while the block is in use, and nowhere otherwise;
      only the entry that the producer is working on (skip) is unsettled. */
  ghost predicate Values(headers: seq<Header>, keyed: nat, lo: int, values: seq<Option<BlockId>>,
                         held: map<nat, BlockId>, skip: int) {
    && (forall b: int :: Floor(headers, keyed, lo) <= b < keyed && b != skip ==> ValueOk(Last(headers), values, held, b))
    && (forall b <- held :: Floor(headers, keyed, lo) <= b < keyed && b != skip)
  }

  lemma ValuesStoreKey(headers: seq<Header>, keys: seq<Word>, keyed: nat, lo: int, next: nat,
                       values: seq<Option<BlockId>>, held: map<nat, BlockId>)
    requires Ring(headers, keys, keyed, lo, next) && Values(headers, keyed, lo, values, held, -1)
    requires next !in held && (next == keyed ==> Find(held, keyed - Last(headers).capacity) == None)
    ensures Values(headers, if next < keyed then keyed else next + 1, lo, values, held, next)
  {
    hide EntryOf, IsCapacity, Keys, AllKnow, TailsOk, Shape;
    var h, keyed' := Last(headers), if next < keyed then keyed else next + 1;
    forall b: int | Floor(headers, keyed', lo) <= b < keyed' && b != next
      ensures ValueOk(h, values, held, b)
    {
      assert Floor(headers, keyed, lo) <= b < keyed;
    }
  }

  /** Only the current header's slots matter. */
  lemma ValuesFrame(headers: seq<Header>, headers': seq<Header>, keyed: nat, lo: int, lo': int,
                    values: seq<Option<BlockId>>, values': seq<Option<BlockId>>, held: map<nat, BlockId>, skip: int)
    requires Values(headers, keyed, lo, values, held, skip)
    requires Floor(headers', keyed, lo') == Floor(headers, keyed, lo)
    requires forall b: int :: Floor(headers, keyed, lo) <= b < keyed ==> EntryOf(Last(headers'), b) == EntryOf(Last(headers), b)
    requires values <= values'
    ensures Values(headers', keyed, lo', values', held, skip)
  {
    hide EntryOf, Floor;
    forall b: int | Floor(headers', keyed, lo') <= b < keyed && b != skip
      ensures ValueOk(Last(headers'), values', held, b)
    {
      assert ValueOk(Last(headers), values, held, b);
    }
  }

  /** Storing to the entry of block number b, to link it or to clear it. */
  lemma ValuesStore(headers: seq<Header>, keys: seq<Word>, keyed: nat, lo: int, next: nat,
                    values: seq<Option<BlockId>>, held: map<nat, BlockId>, skip: int, b: nat,
                    held': map<nat, BlockId>, skip': int)
    requires Ring(headers, keys, keyed, lo, next) && Values(headers, keyed, lo, values, held, skip)
    requires Floor(headers, keyed, lo) <= b < keyed
    requires (skip' == skip && skip != b) || (skip == b && skip' == -1)
    requires forall c: nat :: c != b ==> Find(held', c) == Find(held, c)
    ensures EntryOf(Last(headers), b) < |keys|
    ensures |values| == |keys| ==>
              Values(headers, keyed, lo, values[EntryOf(Last(headers), b) := Find(held', b)], held', skip')
  {
    hide EntryOf, IsCapacity, Keys, AllKnow, TailsOk;
    var h := Last(headers);
    ShapeLast(headers, |keys|);
    EntryBound(h, |keys|, b);
    if |values| == |keys| {
      var values' := values[EntryOf(h, b) := Find(held', b)];
      forall c: int | Floor(headers, keyed, lo) <= c < keyed && c != skip'
        ensures ValueOk(h, values', held', c)
      {
        if c != b {
          EntryUnique(h, |keys|, c, b);
          assert ValueOk(h, values, held, c);
          if c >= 0 {
            assert Find(held', c) == Find(held, c);
          }
        }
      }
      forall c | c in held'
        ensures Floor(headers, keyed, lo) <= c < keyed && c != skip'
      {
        if c != b {
          assert Find(held', c) == Find(held, c);
        }
      }
    }
  }

  // ---------------------------------------------------------------- consumers at a glance

  /** The elements that a consumer has claimed but not yet counted run from StartOf to EndOf. */
  ghost function StartOf(c: Consumer): nat {
    match c
    case Idle => 0
    case NullPointer => 0
    case Reading(_, _, _, _, _, start) => start
    case _ => c.pos
  }

  ghost function EndOf(c: Consumer): nat {
    if c.Idle? || c.NullPointer? then 0 else c.end
  }

  /** The next element it reads. */
  ghost function PosOf(c: Consumer): nat {
    if c.Idle? || c.NullPointer? then 0 else c.pos
  }

  ghost predicate InFlight(c: Consumer, k: nat) {
    StartOf(c) <= k < EndOf(c)
  }

  /** The block it is about to put back in the pool, and the block number it is about to unlink. */
  ghost function FreeOf(c: Consumer): Option<BlockId> {
    if c.Freeing? then Some(c.block) else None
  }

  ghost function UnlinkOf(c: Consumer): Option<nat> {
    if c.Unlinking? then Some(BlockBefore(c.pos)) else None
  }

  ghost predicate ConsumerShape(c: Consumer) {
    match c
    case Idle => true
    case NullPointer => false
    case Reading(i, end, _, _, _, start) => start < end && start <= i <= StopOf(start, end)
    case Unlinking(i, end, _, _, _) => AfterPart(i, end)
    case Freeing(i, end, _, _, _) => AfterPart(i, end)
    case _ => c.pos < c.end
  }

  ghost predicate AfterPart(i: nat, end: nat) {
    0 < i <= end && (i < end ==> i % BLOCK_SIZE == 0)
  }

  // ---------------------------------------------------------------- claims

  ghost predicate Apart(a: Consumer, b: Consumer) {
    forall k: nat :: !InFlight(a, k) || !InFlight(b, k)
  }

  ghost predicate Uncounted(c: Consumer, done: set<nat>, head: nat) {
    forall k: nat :: InFlight(c, k) ==> k < head && k !in done
  }

  ghost predicate Disjoint(cs: seq<Consumer>, done: set<nat>, head: nat) {
    && (forall i, j :: 0 <= i < j < |cs| ==> Apart(cs[i], cs[j]))
    && (forall i :: 0 <= i < |cs| ==> Uncounted(cs[i], done, head))
    && (forall k <- done :: k < head)
  }

  ghost predicate Flying(cs: seq<Consumer>, k: nat) {
    exists i :: 0 <= i < |cs| && InFlight(cs[i], k)
  }

  ghost predicate Shapes(cs: seq<Consumer>) {
    forall i :: 0 <= i < |cs| ==> ConsumerShape(cs[i])
  }

  /** Every element below the head is counted as done or in some consumer's hands, and in only one's. */
  ghost predicate Claims(cs: seq<Consumer>, head: nat, done: set<nat>) {
    && Shapes(cs)
    && Disjoint(cs, done, head)
    && (forall k: nat :: k < head ==> k in done || Flying(cs, k))
  }

  lemma FlyingMoves(cs: seq<Consumer>, c: nat, to: Consumer, k: nat)
    requires c < |cs| && Flying(cs, k) && (InFlight(cs[c], k) ==> InFlight(to, k))
    ensures Flying(cs[c := to], k)
  {
    var i :| 0 <= i < |cs| && InFlight(cs[i], k);
    assert InFlight(cs[c := to][i], k);
  }

  /** One consumer changes what it has in flight: it may add elements from the head on, and drop elements,
      done or not. */
  lemma DisjointUpdate(cs: seq<Consumer>, c: nat, to: Consumer, done: set<nat>, head: nat, done': set<nat>, head': nat)
    requires Disjoint(cs, done, head) && c < |cs| && head <= head'
    requires forall k: nat :: InFlight(to, k) ==> k < head' && k !in done' && (InFlight(cs[c], k) || k >= head)
    requires forall k <- done' :: k in done || InFlight(cs[c], k)
    ensures Disjoint(cs[c := to], done', head')
  {
    hide InFlight;
    var cs' := cs[c := to];
    forall i | 0 <= i < |cs| && i != c
      ensures Apart(cs[i], to) && Apart(to, cs[i]) && Uncounted(cs[i], done', head')
    {
      forall k: nat
        ensures !InFlight(cs[i], k) || !InFlight(to, k)
        ensures InFlight(cs[i], k) ==> k < head' && k !in done'
      {
        DisjointPair(cs, i, c, k, done, head);
      }
    }
    forall k | k in done'
      ensures k < head'
    {
      DisjointPair(cs, c, c, k, done, head);
    }
  }

  /** Two consumers never have the same element in flight. */
  lemma DisjointPair(cs: seq<Consumer>, i: nat, j: nat, k: nat, done: set<nat>, head: nat)
    requires Disjoint(cs, done, head) && i < |cs| && j < |cs|
    ensures i != j ==> !InFlight(cs[i], k) || !InFlight(cs[j], k)
    ensures InFlight(cs[i], k) ==> k < head && k !in done
    ensures InFlight(cs[j], k) ==> k < head && k !in done
  {
    hide InFlight;
    if i < j {
      assert Apart(cs[i], cs[j]);
    } else if j < i {
      assert Apart(cs[j], cs[i]);
    }
    assert Uncounted(cs[i], done, head) && Uncounted(cs[j], done, head);
  }

  lemma ShapesUpdate(cs: seq<Consumer>, c: nat, to: Consumer)
    requires c < |cs| && ConsumerShape(to) && Shapes(cs)
    ensures Shapes(cs[c := to])
  {
  }

  /** A consumer moves on without claiming or counting. */
  lemma ClaimsMove(cs: seq<Consumer>, c: nat, to: Consumer, head: nat, done: set<nat>)
    requires Claims(cs, head, done) && c < |cs| && ConsumerShape(to)
    requires StartOf(to) == StartOf(cs[c]) && EndOf(to) == EndOf(cs[c])
    ensures Claims(cs[c := to], head, done)
  {
    hide ConsumerShape;
    var cs' := cs[c := to];
    ShapesUpdate(cs, c, to);
    DisjointUpdate(cs, c, to, done, head, done, head);
    forall k: nat | k < head
      ensures k in done || Flying(cs', k)
    {
      if k !in done {
        FlyingMoves(cs, c, to, k);
      }
    }
  }

  lemma ClaimsTake(cs: seq<Consumer>, c: nat, head: nat, n: nat, done: set<nat>)
    requires Claims(cs, head, done) && c < |cs| && cs[c].Idle? && n > 0
    ensures Claims(cs[c := Claimed(head, head + n)], head + n, done)
  {
    var to := Claimed(head, head + n);
    var cs' := cs[c := to];
    forall k | k in done
      ensures k < head + n
    {
    }
    DisjointUpdate(cs, c, to, done, head, done, head + n);
    forall k: nat | k < head + n
      ensures k in done || Flying(cs', k)
    {
      if k < head {
        if k !in done {
          FlyingMoves(cs, c, to, k);
        }
      } else {
        assert InFlight(cs'[c], k);
      }
    }
  }

  /** A consumer counts the elements up to mid and goes on from there. */
  lemma ClaimsCount(cs: seq<Consumer>, c: nat, to: Consumer, head: nat, done: set<nat>, mid: nat)
    requires Claims(cs, head, done) && c < |cs| && ConsumerShape(to)
    requires StartOf(cs[c]) <= mid <= EndOf(cs[c])
    requires forall k: nat {:trigger InFlight(to, k)} :: InFlight(to, k) <==> mid <= k < EndOf(cs[c])
    ensures Claims(cs[c := to], head, done + Span(StartOf(cs[c]), mid))
  {
    hide ConsumerShape;
    var cs', done' := cs[c := to], done + Span(StartOf(cs[c]), mid);
    ShapesUpdate(cs, c, to);
    forall k: nat
      ensures InFlight(to, k) ==> k < head && k !in done' && InFlight(cs[c], k)
      ensures k in done' ==> k in done || InFlight(cs[c], k)
    {
      if InFlight(to, k) {
        assert InFlight(cs[c], k);
      }
    }
    DisjointUpdate(cs, c, to, done, head, done', head);
    forall k: nat | k < head
      ensures k in done' || Flying(cs', k)
    {
      if k !in done' {
        assert InFlight(cs[c], k) ==> InFlight(to, k);
        FlyingMoves(cs, c, to, k);
      }
    }
  }

  // ---------------------------------------------------------------- ownership of blocks

  ghost predicate IsHeld(held: map<nat, BlockId>, id: BlockId) {
    exists b <- held :: held[b] == id
  }

  ghost predicate IsFreeing(cs: seq<Consumer>, id: BlockId) {
    exists i :: 0 <= i < |cs| && FreeOf(cs[i]) == Some(id)
  }

  ghost predicate Owners(held: map<nat, BlockId>, ids: set<BlockId>, hand: seq<BlockId>, cs: seq<Consumer>) {
    && (forall b <- held :: held[b] in ids)
    && (forall b, c :: b in held && c in held && b != c ==> held[b] != held[c])
    && (forall k :: 0 <= k < |hand| ==> hand[k] in ids && !IsHeld(held, hand[k]) && !IsFreeing(cs, hand[k]))
    && (forall k, m :: 0 <= k < m < |hand| ==> hand[k] != hand[m])
    && (forall i :: 0 <= i < |cs| && FreeOf(cs[i]).Some? ==> FreeOf(cs[i]).value in ids && !IsHeld(held, FreeOf(cs[i]).value))
    && (forall i, j :: 0 <= i < j < |cs| && FreeOf(cs[i]).Some? ==> FreeOf(cs[i]) != FreeOf(cs[j]))
  }

  /** No block is lost: each one is linked in the ring, in the producer's hand, or about to be freed. */
  ghost predicate Accounted(held: map<nat, BlockId>, ids: set<BlockId>, hand: seq<BlockId>, cs: seq<Consumer>) {
    forall id <- ids :: IsHeld(held, id) || id in hand || IsFreeing(cs, id)
  }

  lemma FreeingMoves(cs: seq<Consumer>, c: nat, to: Consumer, id: BlockId)
    requires c < |cs|
    ensures IsFreeing(cs, id) && FreeOf(cs[c]) != Some(id) ==> IsFreeing(cs[c := to], id)
    ensures IsFreeing(cs[c := to], id) ==> IsFreeing(cs, id) || FreeOf(to) == Some(id)
    ensures FreeOf(to) == Some(id) ==> IsFreeing(cs[c := to], id)
  {
    if IsFreeing(cs, id) && FreeOf(cs[c]) != Some(id) {
      var i :| 0 <= i < |cs| && FreeOf(cs[i]) == Some(id);
      assert FreeOf(cs[c := to][i]) == Some(id);
    }
    if FreeOf(to) == Some(id) {
      assert FreeOf(cs[c := to][c]) == Some(id);
    }
  }

  lemma OwnersMove(held: map<nat, BlockId>, ids: set<BlockId>, hand: seq<BlockId>, cs: seq<Consumer>, c: nat, to: Consumer)
    requires Owners(held, ids, hand, cs) && Accounted(held, ids, hand, cs) && c < |cs| && FreeOf(to) == FreeOf(cs[c])
    ensures Owners(held, ids, hand, cs[c := to]) && Accounted(held, ids, hand, cs[c := to])
  {
    hide FreeOf, IsHeld;
    var cs' := cs[c := to];
    forall id: BlockId
      ensures IsFreeing(cs', id) <==> IsFreeing(cs, id)
    {
      FreeingMoves(cs, c, to, id);
      assert cs'[c := cs[c]] == cs;
      FreeingMoves(cs', c, cs[c], id);
    }
  }

  /** Unlinking: the block goes from the ring to the consumer that emptied it. */
  lemma OwnersUnlink(held: map<nat, BlockId>, ids: set<BlockId>, hand: seq<BlockId>, cs: seq<Consumer>, c: nat,
                     to: Consumer, b: nat)
    requires Owners(held, ids, hand, cs) && Accounted(held, ids, hand, cs) && c < |cs|
    requires b in held && FreeOf(cs[c]) == None && FreeOf(to) == Some(held[b])
    ensures Owners(held - {b}, ids, hand, cs[c := to]) && Accounted(held - {b}, ids, hand, cs[c := to])
  {
    hide FreeOf;
    var cs', held' := cs[c := to], held - {b};
    forall id: BlockId
      ensures IsHeld(held', id) ==> IsHeld(held, id) && id != held[b]
      ensures IsHeld(held, id) && id != held[b] ==> IsHeld(held', id)
      ensures IsFreeing(cs', id) <==> IsFreeing(cs, id) || id == held[b]
    {
      FreeingMoves(cs, c, to, id);
      if IsHeld(held, id) && id != held[b] {
        var x :| x in held && held[x] == id;
        assert x in held';
      }
    }
    assert IsHeld(held, held[b]);
    forall i, j | 0 <= i < j < |cs'| && FreeOf(cs'[i]).Some?
      ensures FreeOf(cs'[i]) != FreeOf(cs'[j])
    {
    }
  }

  lemma OwnersFree(held: map<nat, BlockId>, ids: set<BlockId>, hand: seq<BlockId>, cs: seq<Consumer>, c: nat,
                   to: Consumer, id: BlockId)
    requires Owners(held, ids, hand, cs) && Accounted(held, ids, hand, cs) && c < |cs|
    requires FreeOf(cs[c]) == Some(id) && FreeOf(to) == None
    ensures Owners(held, ids - {id}, hand, cs[c := to]) && Accounted(held, ids - {id}, hand, cs[c := to])
  {
    hide FreeOf;
    var cs' := cs[c := to];
    assert IsFreeing(cs, id);
    forall x: BlockId
      ensures IsFreeing(cs', x) ==> IsFreeing(cs, x)
      ensures IsFreeing(cs, x) && x != id ==> IsFreeing(cs', x)
    {
      FreeingMoves(cs, c, to, x);
    }
    forall b | b in held
      ensures held[b] != id
    {
      assert IsHeld(held, held[b]);
    }
  }

  // ---------------------------------------------------------------- what a consumer knows of the ring

  ghost predicate LookOk(headers: seq<Header>, keyed: nat, c: Consumer) {
    match c
    case HasHeader(_, end, h) => Sees(headers, keyed, h, end)
    case HasTail(_, end, h, t) => Sees(headers, keyed, h, end) && exists b: nat :: TailAt(headers, keyed, h, end, t, b)
    case AtSlot(i, end, h, slot) => Sees(headers, keyed, h, end) && slot == Slot(headers[h], i / BLOCK_SIZE)
    case Reading(_, end, h, slot, _, start) => Sees(headers, keyed, h, end) && slot == Slot(headers[h], start / BLOCK_SIZE)
    case Unlinking(i, end, h, slot, _) => Sees(headers, keyed, h, end) && slot == Slot(headers[h], BlockBefore(i))
    case Freeing(i, end, h, slot, _) => Sees(headers, keyed, h, end) && slot == Slot(headers[h], BlockBefore(i))
    case _ => true
  }

  /** Header h has entered every block of the elements below end. */
  ghost predicate Sees(headers: seq<Header>, keyed: nat, h: nat, end: nat) {
    h < |headers| && BlocksFor(end) <= Top(headers, keyed, h)
  }

  /** t was the slot of block number b when it was read as the tail, and b is not before the claim's last block. */
  ghost predicate TailAt(headers: seq<Header>, keyed: nat, h: nat, end: nat, t: nat, b: nat) {
    h < |headers| && BlocksFor(end) <= b + 1 <= Top(headers, keyed, h) && t == Slot(headers[h], b)
  }

  ghost predicate Looks(headers: seq<Header>, keyed: nat, cs: seq<Consumer>) {
    forall i :: 0 <= i < |cs| ==> LookOk(headers, keyed, cs[i])
  }

  /** Headers only gain successors and entered blocks; nothing moves inside them. */
  ghost predicate Extends(headers: seq<Header>, keyed: nat, headers': seq<Header>, keyed': nat) {
    && |headers| <= |headers'|
    && forall i :: 0 <= i < |headers| ==>
         && headers'[i].base == headers[i].base && headers'[i].capacity == headers[i].capacity
         && Top(headers, keyed, i) <= Top(headers', keyed', i)
  }

  lemma LooksExtend(headers: seq<Header>, keyed: nat, headers': seq<Header>, keyed': nat, cs: seq<Consumer>)
    requires Looks(headers, keyed, cs) && Extends(headers, keyed, headers', keyed')
    ensures Looks(headers', keyed', cs)
  {
    hide Top, BlocksFor;
    forall i | 0 <= i < |cs|
      ensures LookOk(headers', keyed', cs[i])
    {
      assert LookOk(headers, keyed, cs[i]);
      if cs[i].HasTail? {
        var HasTail(_, end, h, t) := cs[i];
        var b: nat :| TailAt(headers, keyed, h, end, t, b);
        assert TailAt(headers', keyed', h, end, t, b);
      }
    }
  }

  /** The lookup of a consumer finds the slot of its element's block, through whichever header it loaded and
      whatever the producer has done to the ring since. */
  lemma LookupLands(headers: seq<Header>, keys: seq<Word>, keyed: nat, lo: int, next: nat, c: Consumer)
    requires Ring(headers, keys, keyed, lo, next) && c.HasTail? && LookOk(headers, keyed, c) && c.pos < c.end
    requires Floor(headers, keyed, lo) <= c.pos / BLOCK_SIZE
    ensures var h := headers[c.header];
            && c.tail < |h.index| && h.index[c.tail] < |keys| && h.capacity > 0
            && LookupSlot(h.capacity, c.tail, keys[h.index[c.tail]], c.pos) == Slot(h, c.pos / BLOCK_SIZE)
  {
    hide Slot, IsCapacity, Base;
    var HasTail(i, end, h, t) := c;
    var b: nat :| TailAt(headers, keyed, h, end, t, b);
    assert i / BLOCK_SIZE <= b;
    assert HeaderOk(headers[h], |keys|);
    EntryBound(headers[h], |keys|, b);
    KeyInPlace(headers, keys, keyed, lo, next, h, b);
    ShapeLast(headers, |keys|);
    CapacityBounds(Last(headers).capacity);
    LookupFinds(headers[h], |keys|, b, i / BLOCK_SIZE, i);
  }

  /** The entry at that slot is the one in the current header. */
  lemma EntryLands(headers: seq<Header>, keys: seq<Word>, keyed: nat, lo: int, next: nat, h: nat, end: nat, b: nat)
    requires Ring(headers, keys, keyed, lo, next) && Sees(headers, keyed, h, end) && b < BlocksFor(end)
    requires Floor(headers, keyed, lo) <= b
    ensures Slot(headers[h], b) < |headers[h].index| && headers[h].index[Slot(headers[h], b)] < |keys|
    ensures headers[h].index[Slot(headers[h], b)] == EntryOf(Last(headers), b)
  {
    hide Slot, IsCapacity, Base;
    assert HeaderOk(headers[h], |keys|);
    EntryBound(headers[h], |keys|, b);
    KeyInPlace(headers, keys, keyed, lo, next, h, b);
  }

  // ---------------------------------------------------------------- what a consumer knows of its block

  ghost function Range(b: nat): set<nat> {
    Span(BLOCK_SIZE * b, BLOCK_SIZE * b + BLOCK_SIZE)
  }

  ghost predicate AllDone(done: set<nat>, b: nat) {
    Range(b) <= done
  }

  ghost predicate BlockOk(held: map<nat, BlockId>, done: set<nat>, c: Consumer) {
    match c
    case Reading(_, _, _, _, block, start) => Find(held, start / BLOCK_SIZE) == Some(block)
    case Unlinking(i, _, _, _, block) => Find(held, BlockBefore(i)) == Some(block) && AllDone(done, BlockBefore(i))
    case _ => true
  }

  ghost predicate BlocksOk(held: map<nat, BlockId>, done: set<nat>, cs: seq<Consumer>) {
    && (forall i :: 0 <= i < |cs| ==> BlockOk(held, done, cs[i]))
    && (forall i, j :: 0 <= i < j < |cs| && UnlinkOf(cs[i]).Some? ==> UnlinkOf(cs[i]) != UnlinkOf(cs[j]))
  }

  ghost predicate IsUnlinking(cs: seq<Consumer>, b: nat) {
    exists i :: 0 <= i < |cs| && UnlinkOf(cs[i]) == Some(b)
  }

  /** A block is in the ring until all its elements are done, and then somebody is unlinking it. */
  ghost predicate Released(held: map<nat, BlockId>, done: set<nat>, blocks: nat, cs: seq<Consumer>) {
    && (forall b: nat :: b < blocks && b !in held ==> AllDone(done, b))
    && (forall b <- held :: AllDone(done, b) ==> IsUnlinking(cs, b))
  }

  lemma UnlinkingMoves(cs: seq<Consumer>, c: nat, to: Consumer, b: nat)
    requires c < |cs|
    ensures IsUnlinking(cs, b) && UnlinkOf(cs[c]) != Some(b) ==> IsUnlinking(cs[c := to], b)
    ensures UnlinkOf(to) == Some(b) ==> IsUnlinking(cs[c := to], b)
  {
    if IsUnlinking(cs, b) && UnlinkOf(cs[c]) != Some(b) {
      var i :| 0 <= i < |cs| && UnlinkOf(cs[i]) == Some(b);
      assert UnlinkOf(cs[c := to][i]) == Some(b);
    }
    if UnlinkOf(to) == Some(b) {
      assert UnlinkOf(cs[c := to][c]) == Some(b);
    }
  }

  lemma BlocksMove(held: map<nat, BlockId>, done: set<nat>, blocks: nat, cs: seq<Consumer>, c: nat, to: Consumer)
    requires BlocksOk(held, done, cs) && Released(held, done, blocks, cs) && c < |cs|
    requires BlockOk(held, done, to) && UnlinkOf(to) == UnlinkOf(cs[c])
    ensures BlocksOk(held, done, cs[c := to]) && Released(held, done, blocks, cs[c := to])
  {
    hide UnlinkOf, BlockOk, AllDone;
    forall b | b in held && AllDone(done, b)
      ensures IsUnlinking(cs[c := to], b)
    {
      UnlinkingMoves(cs, c, to, b);
    }
  }

  // ---------------------------------------------------------------- counting

  lemma {:induction false} SpanSize(from: nat, end: nat)
    requires from <= end
    ensures |Span(from, end)| == end - from
    decreases end
  {
    if from < end {
      SpanSize(from, end - 1);
      assert Span(from, end) == Span(from, end - 1) + {end - 1};
    } else {
      assert Span(from, end) == {};
    }
  }

  ghost predicate Sized32(blocks: map<BlockId, Block>) {
    forall id <- blocks :: |blocks[id].cells| == BLOCK_SIZE
  }

  /** elementsCompletelyDequeued of a block in the ring is the number of its elements that are done. */
  ghost predicate Counts(held: map<nat, BlockId>, blocks: map<BlockId, Block>, done: set<nat>) {
    forall b <- held :: held[b] in blocks && blocks[held[b]].completed == |done * Range(b)|
  }

  lemma FullIffDone(done: set<nat>, b: nat)
    ensures |done * Range(b)| <= BLOCK_SIZE
    ensures |done * Range(b)| == BLOCK_SIZE <==> AllDone(done, b)
  {
    SpanSize(BLOCK_SIZE * b, BLOCK_SIZE * b + BLOCK_SIZE);
    SubsetSize(done * Range(b), Range(b));
    if AllDone(done, b) {
      assert done * Range(b) == Range(b);
    }
  }

  /** The part of block b that a consumer counts is new, and other blocks do not change. */
  lemma CountPart(done: set<nat>, start: nat, i: nat, b: nat, other: nat)
    requires start / BLOCK_SIZE == b && start < i <= BLOCK_SIZE * b + BLOCK_SIZE
    requires forall k: nat :: Between(start, k, i) ==> k !in done
    ensures |(done + Span(start, i)) * Range(b)| == |done * Range(b)| + i - start
    ensures other != b ==> (done + Span(start, i)) * Range(other) == done * Range(other)
    ensures other != b ==> (AllDone(done + Span(start, i), other) <==> AllDone(done, other))
  {
    SpanSize(start, i);
    var part := Span(start, i);
    forall k | k in part
      ensures k in Range(b) && k !in done && (other != b ==> k !in Range(other))
    {
      assert Between(start, k, i);
      InRange(k, b);
      InRange(k, other);
    }
    assert (done + part) * Range(b) == done * Range(b) + part;
    assert |done * Range(b) + part| == |done * Range(b)| + |part|;
  }

  lemma InRange(k: nat, b: nat)
    ensures k in Range(b) <==> k / BLOCK_SIZE == b
  {
    assert Between(BLOCK_SIZE * b, k, BLOCK_SIZE * b + BLOCK_SIZE) <==> k / BLOCK_SIZE == b;
  }

  // ---------------------------------------------------------------- contents

  /** Every element that was enqueued and not read yet is in its cell. */
  ghost predicate Data(enqueued: seq<Value>, held: map<nat, BlockId>, blocks: map<BlockId, Block>, read: map<nat, Option<Value>>) {
    forall k: nat :: k < |enqueued| && k !in read ==>
      && k / BLOCK_SIZE in held
      && held[k / BLOCK_SIZE] in blocks
      && |blocks[held[k / BLOCK_SIZE]].cells| == BLOCK_SIZE
      && blocks[held[k / BLOCK_SIZE]].cells[k % BLOCK_SIZE] == Some(enqueued[k])
  }

  /** What was read for an element is what was enqueued; the elements a consumer has in flight are read up
      to its position and those done are all read. */
  ghost predicate Reads(cs: seq<Consumer>, read: map<nat, Option<Value>>, head: nat, done: set<nat>, enqueued: seq<Value>) {
    && (forall k <- done :: k in read)
    && (forall k <- read :: k < head && k < |enqueued| && read[k] == Some(enqueued[k]))
    && (forall i :: 0 <= i < |cs| ==> ReadUpTo(cs[i], read))
  }

  ghost predicate ReadUpTo(c: Consumer, read: map<nat, Option<Value>>) {
    forall k: nat :: InFlight(c, k) ==> (k in read <==> k < PosOf(c))
  }

  lemma ReadsMove(cs: seq<Consumer>, read: map<nat, Option<Value>>, head: nat, done: set<nat>, enqueued: seq<Value>, c: nat, to: Consumer)
    requires Reads(cs, read, head, done, enqueued) && c < |cs|
    requires StartOf(to) == StartOf(cs[c]) && EndOf(to) == EndOf(cs[c]) && PosOf(to) == PosOf(cs[c])
    ensures Reads(cs[c := to], read, head, done, enqueued)
  {
    hide StartOf, EndOf, PosOf;
    assert ReadUpTo(cs[c], read);
    assert ReadUpTo(to, read) by {
      forall k: nat | InFlight(to, k)
        ensures k in read <==> k < PosOf(to)
      {
        assert InFlight(cs[c], k);
      }
    }
  }

  // ---------------------------------------------------------------- the producer takes, links, takes back and returns blocks

  lemma OwnersTake(held: map<nat, BlockId>, ids: set<BlockId>, cs: seq<Consumer>, id: BlockId)
    requires Owners(held, ids, [], cs) && Accounted(held, ids, [], cs) && id !in ids
    ensures Owners(held, ids + {id}, [id], cs) && Accounted(held, ids + {id}, [id], cs)
  {
    hide FreeOf;
  }

  lemma OwnersLink(held: map<nat, BlockId>, ids: set<BlockId>, cs: seq<Consumer>, id: BlockId, b: nat)
    requires Owners(held, ids, [id], cs) && Accounted(held, ids, [id], cs) && b !in held
    ensures Owners(held[b := id], ids, [], cs) && Accounted(held[b := id], ids, [], cs)
  {
    hide FreeOf;
    var held', hand := held[b := id], [id];
    assert hand[0] == id;
    forall x: BlockId
      ensures IsHeld(held', x) <==> IsHeld(held, x) || x == id
    {
      assert held'[b] == id;
      if IsHeld(held, x) {
        var c :| c in held && held[c] == x;
        assert held'[c] == x;
      }
    }
    forall c | c in held
      ensures held[c] != id
    {
      assert IsHeld(held, held[c]);
    }
    forall i | 0 <= i < |cs| && FreeOf(cs[i]).Some?
      ensures FreeOf(cs[i]).value in ids && !IsHeld(held', FreeOf(cs[i]).value)
    {
      assert FreeOf(cs[i]) == Some(FreeOf(cs[i]).value);
      assert IsFreeing(cs, FreeOf(cs[i]).value);
    }
  }

  lemma OwnersUndo(held: map<nat, BlockId>, ids: set<BlockId>, hand: seq<BlockId>, cs: seq<Consumer>, b: nat)
    requires Owners(held, ids, hand, cs) && Accounted(held, ids, hand, cs) && b in held
    ensures Owners(held - {b}, ids, hand + [held[b]], cs) && Accounted(held - {b}, ids, hand + [held[b]], cs)
  {
    hide FreeOf;
    var held', hand', id := held - {b}, hand + [held[b]], held[b];
    forall x: BlockId
      ensures IsHeld(held', x) <==> IsHeld(held, x) && x != id
    {
      if IsHeld(held, x) && x != id {
        var c :| c in held && held[c] == x;
        assert c in held';
      }
    }
    assert IsHeld(held, id);
    assert !IsFreeing(cs, id);
    assert forall k :: 0 <= k < |hand| ==> hand[k] != id;
    forall x | x in ids
      ensures IsHeld(held', x) || x in hand' || IsFreeing(cs, x)
    {
      assert hand'[|hand|] == id;
      if x in hand {
        assert x in hand';
      }
    }
  }

  lemma OwnersReturn(held: map<nat, BlockId>, ids: set<BlockId>, hand: seq<BlockId>, cs: seq<Consumer>)
    requires Owners(held, ids, hand, cs) && Accounted(held, ids, hand, cs) && hand != []
    ensures Owners(held, ids - {hand[0]}, hand[1..], cs) && Accounted(held, ids - {hand[0]}, hand[1..], cs)
    ensures !IsHeld(held, hand[0])
  {
    hide FreeOf;
    var id := hand[0];
    forall b | b in held
      ensures held[b] != id
    {
      assert IsHeld(held, held[b]);
    }
    forall i | 0 <= i < |cs| && FreeOf(cs[i]).Some?
      ensures FreeOf(cs[i]).value != id
    {
      assert FreeOf(cs[i]) == Some(FreeOf(cs[i]).value);
      assert IsFreeing(cs, FreeOf(cs[i]).value);
    }
    forall x | x in ids - {id}
      ensures IsHeld(held, x) || x in hand[1..] || IsFreeing(cs, x)
    {
      if x in hand {
        var k :| 0 <= k < |hand| && hand[k] == x;
        assert hand[1..][k - 1] == x;
      }
    }
  }

  /** Consumers only know of blocks below `first`; changes from there on do not concern them. */
  lemma ConsumersFrame(held: map<nat, BlockId>, held': map<nat, BlockId>, done: set<nat>, head: nat, first: nat, cs: seq<Consumer>)
    requires Claims(cs, head, done) && head <= BLOCK_SIZE * first
    requires BlocksOk(held, done, cs) && Released(held, done, first, cs)
    requires forall b: nat {:trigger Find(held', b)} :: b < first ==> Find(held', b) == Find(held, b)
    ensures BlocksOk(held', done, cs) && Released(held', done, first, cs)
  {
    forall i | 0 <= i < |cs|
      ensures BlockOk(held', done, cs[i])
    {
      ConsumersBelow(cs, i, head, done);
      assert BlockOk(held, done, cs[i]);
    }
    forall b | b in held' && AllDone(done, b)
      ensures IsUnlinking(cs, b)
    {
      assert Between(BLOCK_SIZE * b, BLOCK_SIZE * b, BLOCK_SIZE * b + BLOCK_SIZE);
      assert BLOCK_SIZE * b in done;
      assert Find(held', b) == Find(held, b);
    }
    forall b: nat | b < first && b !in held'
      ensures AllDone(done, b)
    {
      assert Find(held', b) == Find(held, b);
    }
  }

  lemma ConsumersBelow(cs: seq<Consumer>, i: nat, head: nat, done: set<nat>)
    requires Claims(cs, head, done) && i < |cs|
    ensures cs[i].Reading? ==> cs[i].start < head
    ensures cs[i].Unlinking? && AllDone(done, BlockBefore(cs[i].pos)) ==> BlockBefore(cs[i].pos) * BLOCK_SIZE < head
  {
    assert ConsumerShape(cs[i]);
    assert Uncounted(cs[i], done, head);
    if cs[i].Reading? {
      assert InFlight(cs[i], cs[i].start);
    }
    if cs[i].Unlinking? && AllDone(done, BlockBefore(cs[i].pos)) {
      var k := BlockBefore(cs[i].pos) * BLOCK_SIZE;
      assert Between(k, k, k + BLOCK_SIZE);
      assert k in done;
    }
  }

  /** Blocks outside the ring may come, go and change. */
  lemma ContentsFrame(held: map<nat, BlockId>, held': map<nat, BlockId>, blocks: map<BlockId, Block>, blocks': map<BlockId, Block>,
                      done: set<nat>, enqueued: seq<Value>, read: map<nat, Option<Value>>)
    requires Counts(held, blocks, done) && Data(enqueued, held, blocks, read)
    requires forall b <- held :: held[b] in blocks' && (held[b] in blocks ==> blocks'[held[b]] == blocks[held[b]])
    requires forall b: nat {:trigger Find(held', b)} :: BLOCK_SIZE * b < |enqueued| ==> Find(held', b) == Find(held, b)
    requires forall b <- held' :: (b in held && held[b] == held'[b])
               || (held'[b] in blocks' && blocks'[held'[b]].completed == 0 && done * Range(b) == {})
    ensures Counts(held', blocks', done) && Data(enqueued, held', blocks', read)
  {
    hide Range;
    forall k: nat | k < |enqueued| && k !in read
      ensures k / BLOCK_SIZE in held' && k / BLOCK_SIZE in held && held'[k / BLOCK_SIZE] == held[k / BLOCK_SIZE]
    {
      assert Find(held', k / BLOCK_SIZE) == Find(held, k / BLOCK_SIZE);
    }
  }

  lemma NothingDoneAbove(done: set<nat>, head: nat, b: nat)
    requires (forall k <- done :: k < head) && head <= BLOCK_SIZE * b
    ensures done * Range(b) == {}
  {
    forall k | k in done
      ensures k !in Range(b)
    {
      InRange(k, b);
    }
  }
}
