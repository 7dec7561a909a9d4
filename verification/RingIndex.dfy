/** The block index: where each block number sits in the current header and in the older ones that
    consumers may still hold, and that a lookup through any of them finds it. */
module RingIndex {
  import opened Wrappers
  import opened Words
  import opened BlockRing

  ghost function Last(headers: seq<Header>): Header {
    if headers == [] then Header(0, 0, [], 0, 0) else headers[|headers| - 1]
  }

  /** The entry at the slot of block number b. */
  ghost function EntryOf(h: Header, b: int): nat {
    if Slot(h, b) < |h.index| then h.index[Slot(h, b)] else 0
  }

  /** Block numbers from here on have their slot in the current header to themselves. */
  ghost function Floor(headers: seq<Header>, keyed: nat, lo: int): int {
    if lo > keyed - Last(headers).capacity then lo else keyed - Last(headers).capacity
  }

  /** How many blocks a header knows of. */
  ghost function Top(headers: seq<Header>, keyed: nat, i: nat): nat {
    if i < |headers| - 1 then headers[i].top else keyed
  }

  ghost predicate HeaderOk(h: Header, entries: nat) {
    && IsCapacity(h.capacity) && |h.index| == h.capacity && h.tail < h.capacity
    && (forall j :: 0 <= j < h.capacity ==> h.index[j] < entries)
    && (forall j, k :: 0 <= j < k < h.capacity ==> h.index[j] != h.index[k])
  }

  ghost predicate Shape(headers: seq<Header>, entries: nat) {
    headers != [] && forall i :: 0 <= i < |headers| ==> HeaderOk(headers[i], entries)
  }

  ghost predicate KeyOk(h: Header, keys: seq<Word>, lo: int, b: int) {
    EntryOf(h, b) < |keys| && keys[EntryOf(h, b)] == if b >= lo then Base(b) else INVALID_BLOCK_BASE
  }

  ghost predicate Keys(h: Header, keys: seq<Word>, keyed: nat, lo: int) {
    forall b: int :: keyed - h.capacity <= b < keyed ==> KeyOk(h, keys, lo, b)
  }

  ghost predicate TailsOk(headers: seq<Header>, keyed: nat, next: nat)
    requires headers != []
  {
    && Last(headers).tail == Slot(Last(headers), next - 1)
    && forall i :: 0 <= i < |headers| - 1 ==>
         headers[i].tail == Slot(headers[i], headers[i].top - 1) && headers[i].top <= keyed
  }

  /** Header i puts block b in the same entry as the current header does. */
  ghost predicate Knows(headers: seq<Header>, i: nat, b: int)
    requires i < |headers|
  {
    EntryOf(headers[i], b) == EntryOf(Last(headers), b)
  }

  ghost predicate AllKnow(headers: seq<Header>, keyed: nat, lo: int) {
    forall i: nat, b: int :: i < |headers| && Floor(headers, keyed, lo) <= b < Top(headers, keyed, i) ==> Knows(headers, i, b)
  }

  /** The ring index, with `next` the number of the block that comes after the tail slot's. */
  ghost predicate Ring(headers: seq<Header>, keys: seq<Word>, keyed: nat, lo: int, next: nat) {
    && Shape(headers, |keys|)
    && 0 <= lo && Floor(headers, keyed, lo) <= next <= keyed
    && TailsOk(headers, keyed, next)
    && Keys(Last(headers), keys, keyed, lo)
    && AllKnow(headers, keyed, lo)
  }

  // ---------------------------------------------------------------- slots

  lemma CapacityBounds(c: nat)
    requires IsCapacity(c)
    ensures BLOCK_SIZE <= c && BLOCK_SIZE * c <= HALF
  {
    var k: nat :| k <= 53 && c == BLOCK_SIZE * Pow2(k);
    hide Pow2;
    PowMono(k, 53);
    PowMono(0, k);
    Powers();
  }

  lemma {:induction false} PowMono(j: nat, k: nat)
    requires j <= k
    ensures 1 <= Pow2(j) <= Pow2(k)
    decreases k
  {
    if j < k {
      PowMono(j, k - 1);
    } else if j > 0 {
      PowMono(j - 1, k - 1);
    }
  }

  lemma {:induction false} PowSum(j: nat, k: nat)
    ensures Pow2(j + k) == Pow2(j) * Pow2(k)
  {
    if j > 0 {
      PowSum(j - 1, k);
      assert 2 * Pow2(j - 1) * Pow2(k) == 2 * (Pow2(j - 1) * Pow2(k));
    }
  }

  lemma Powers()
    ensures Pow2(0) == 1 && Pow2(53) == 0x20_0000_0000_0000 && Pow2(59) == 0x800_0000_0000_0000
  {
    hide Pow2;
    SmallPowers();
    PowSum(3, 3);
    PowSum(6, 2);
    PowSum(6, 3);
    PowSum(9, 9);
    PowSum(18, 8);
    PowSum(18, 9);
    PowSum(27, 26);
    PowSum(53, 6);
  }

  lemma SmallPowers()
    ensures Pow2(0) == 1 && Pow2(2) == 4 && Pow2(3) == 8
  {
  }

  lemma DoublePower(k: nat)
    ensures Pow2(k + 1) == 2 * Pow2(k)
  {
  }

  lemma DoubleIsCapacity(c: nat)
    requires IsCapacity(c) && 2 * c * BLOCK_SIZE <= HALF
    ensures IsCapacity(2 * c)
  {
    hide Pow2;
    var k: nat :| k <= 53 && c == BLOCK_SIZE * Pow2(k);
    DoublePower(k);
    assert 2 * c == BLOCK_SIZE * Pow2(k + 1);
    Powers();
  }

  /** A capacity divides the word size, so that wrapping round at 2^64 loses nothing. */
  lemma CapacityDivides(c: nat) returns (q: nat)
    requires IsCapacity(c)
    ensures c * q == M
  {
    hide Pow2;
    var k: nat :| k <= 53 && c == BLOCK_SIZE * Pow2(k);
    q := Pow2(59 - k);
    PowSum(k, 59 - k);
    Powers();
    assert c * q == BLOCK_SIZE * (Pow2(k) * Pow2(59 - k));
  }

  lemma WordModCapacity(x: int, c: nat)
    requires IsCapacity(c)
    ensures c > 0 && W(x) % c == x % c
  {
    CapacityBounds(c);
    var q := CapacityDivides(c);
    ModPlusMultiple(W(x), (x / M) * q, c);
    assert x == W(x) + (x / M) * M;
    assert (x / M) * M == (x / M) * (q * c) == ((x / M) * q) * c;
  }

  lemma SlotBound(h: Header, b: int)
    requires h.capacity > 0
    ensures Slot(h, b) < h.capacity
  {
  }

  lemma SlotStep(h: Header, b: int, d: int)
    requires h.capacity > 0
    ensures (Slot(h, b) + d) % h.capacity == Slot(h, b + d)
  {
    ModSum(h.base + b, d, h.capacity);
  }

  lemma SlotUnique(h: Header, b: int, c: int)
    requires h.capacity > 0 && b - c < h.capacity && c - b < h.capacity && Slot(h, b) == Slot(h, c)
    ensures b == c
  {
    ModUnique(h.base + b, h.base + c, h.capacity);
  }

  lemma SlotWraps(h: Header, b: int)
    requires h.capacity > 0
    ensures Slot(h, b + h.capacity) == Slot(h, b)
  {
    ModPlusOnce(h.base + b, h.capacity);
  }

  lemma EntryUnique(h: Header, entries: nat, b: int, c: int)
    requires HeaderOk(h, entries) && b - c < h.capacity && c - b < h.capacity && b != c
    ensures EntryOf(h, b) != EntryOf(h, c)
  {
    hide Slot, IsCapacity;
    CapacityBounds(h.capacity);
    SlotBound(h, b);
    SlotBound(h, c);
    if Slot(h, b) == Slot(h, c) {
      SlotUnique(h, b, c);
    }
    var j, k := Slot(h, b), Slot(h, c);
    if j < k {
      assert h.index[j] != h.index[k];
    } else {
      assert h.index[k] != h.index[j];
    }
  }

  lemma EntryBound(h: Header, entries: nat, b: int)
    requires HeaderOk(h, entries)
    ensures EntryOf(h, b) < entries && Slot(h, b) < h.capacity && EntryOf(h, b) == h.index[Slot(h, b)]
  {
    hide IsCapacity;
    CapacityBounds(h.capacity);
    SlotBound(h, b);
  }

  // ---------------------------------------------------------------- looking a block up

  /** Index arithmetic on 64-bit words finds the slot of block number b from the slot and key of block
      number t, as long as the two are less than half the index range apart. */
  lemma LookupFinds(h: Header, entries: nat, t: int, b: nat, index: nat)
    requires HeaderOk(h, entries) && index / BLOCK_SIZE == b && -HALF <= BLOCK_SIZE * (b - t) < HALF
    ensures h.capacity > 0 && LookupSlot(h.capacity, Slot(h, t), Base(t), index) == Slot(h, b)
  {
    hide Slot, IsCapacity;
    CapacityBounds(h.capacity);
    var d := BLOCK_SIZE * (b - t);
    MinusOfWords(BLOCK_SIZE * b, BLOCK_SIZE * t);
    assert Minus(Base(b), Base(t)) == W(d);
    SmallWord(d);
    assert Signed(W(d)) == d;
    assert OverBlockSize(d) == b - t;
    WordModCapacity(Slot(h, t) + (b - t), h.capacity);
    SlotStep(h, t, b - t);
  }

  /** A block number beyond every one whose slot could have been given away: its key is in place. */
  lemma KeyInPlace(headers: seq<Header>, keys: seq<Word>, keyed: nat, lo: int, next: nat, i: nat, b: int)
    requires Ring(headers, keys, keyed, lo, next)
    requires i < |headers| && Floor(headers, keyed, lo) <= b < Top(headers, keyed, i)
    ensures EntryOf(headers[i], b) == EntryOf(Last(headers), b)
    ensures EntryOf(headers[i], b) < |keys| && keys[EntryOf(headers[i], b)] == Base(b)
  {
    hide Shape, EntryOf, Base;
    TopBound(headers, keyed, next, i);
    assert Knows(headers, i, b);
    assert KeyOk(Last(headers), keys, lo, b);
  }

  lemma TopBound(headers: seq<Header>, keyed: nat, next: nat, i: nat)
    requires headers != [] && TailsOk(headers, keyed, next) && i < |headers|
    ensures Top(headers, keyed, i) <= keyed
  {
  }

  // ---------------------------------------------------------------- steps of the producer

  /** Entering block number next in the slot after the tail. */
  lemma RingStoreKey(headers: seq<Header>, keys: seq<Word>, keyed: nat, lo: int, next: nat)
    requires Ring(headers, keys, keyed, lo, next)
    ensures var e := EntryOf(Last(headers), next);
            && e < |keys|
            && Ring(headers, keys[e := Base(next)], if next < keyed then keyed else next + 1, lo, next)
            && Floor(headers, keyed, lo) <= Floor(headers, if next < keyed then keyed else next + 1, lo)
  {
    hide Slot, EntryOf, Base, IsCapacity;
    var h, e := Last(headers), EntryOf(Last(headers), next);
    CapacityBounds(h.capacity);
    EntryBound(h, |keys|, next);
    var keys', keyed' := keys[e := Base(next)], if next < keyed then keyed else next + 1;
    forall b: int | keyed' - h.capacity <= b < keyed'
      ensures KeyOk(h, keys', lo, b)
    {
      EntryBound(h, |keys|, b);
      if b != next {
        EntryUnique(h, |keys|, b, next);
        assert KeyOk(h, keys, lo, b);
      }
    }
    forall i: nat, b: int | i < |headers| && Floor(headers, keyed', lo) <= b < Top(headers, keyed', i)
      ensures Knows(headers, i, b)
    {
      if i < |headers| - 1 || b < keyed {
        assert Knows(headers, i, b);
      }
    }
  }

  lemma ShapeLast(headers: seq<Header>, entries: nat)
    requires Shape(headers, entries)
    ensures HeaderOk(Last(headers), entries) && Last(headers).capacity > 0
  {
    hide IsCapacity;
    CapacityBounds(Last(headers).capacity);
  }

  /** Moving the tail to the slot of another block number. */
  lemma RingSetTail(headers: seq<Header>, keys: seq<Word>, keyed: nat, lo: int, next: nat, next': nat, headers': seq<Header>)
    requires Ring(headers, keys, keyed, lo, next) && Floor(headers, keyed, lo) <= next' <= keyed
    requires headers' == headers[|headers| - 1 := Last(headers).(tail := Slot(Last(headers), next' - 1))]
    ensures Ring(headers', keys, keyed, lo, next')
    ensures Floor(headers', keyed, lo) == Floor(headers, keyed, lo)
    ensures forall b: int :: EntryOf(Last(headers'), b) == EntryOf(Last(headers), b)
  {
    hide IsCapacity;
    var h, h' := Last(headers), Last(headers');
    ShapeLast(headers, |keys|);
    SlotBound(h, next' - 1);
    forall b: int
      ensures Slot(h', b) == Slot(h, b) && EntryOf(h', b) == EntryOf(h, b)
    {
    }
    forall b: int | keyed - h.capacity <= b < keyed
      ensures KeyOk(h', keys, lo, b)
    {
      assert KeyOk(h, keys, lo, b);
    }
    forall i: nat, b: int | i < |headers'| && Floor(headers', keyed, lo) <= b < Top(headers', keyed, i)
      ensures Knows(headers', i, b)
    {
      assert Knows(headers, i, b);
    }
  }

  // ---- growth

  /** A block of the old ring keeps its entry; its slot in the new ring counts from the oldest one. */
  lemma GrownKeeps(h: Header, entries: nat, keyed: nat, b: int)
    requires HeaderOk(h, entries) && h.capacity > 0 && h.tail == Slot(h, keyed - 1)
    requires keyed - h.capacity <= b < keyed
    ensures var g := Grown(h, keyed - 1, entries);
            Slot(g, b) == b - (keyed - h.capacity) && EntryOf(g, b) == EntryOf(h, b)
  {
    hide IsCapacity;
    var g, j := Grown(h, keyed - 1, entries), b - (keyed - h.capacity);
    ModSum(h.capacity - keyed, b, g.capacity);
    SmallMod(j, g.capacity);
    SlotStep(h, keyed - 1, 1 + j);
    SlotWraps(h, b);
    SlotBound(h, b);
    assert g.index[j] == h.index[(h.tail + 1 + j) % h.capacity];
  }

  lemma SmallMod(x: int, n: int)
    requires 0 <= x < n
    ensures x % n == x
  {
    ModIs(x, 0, x, n);
  }

  /** The block numbers before them fall on the new entries. */
  lemma GrownAdds(h: Header, entries: nat, keyed: nat, b: int)
    requires HeaderOk(h, entries) && h.capacity > 0
    requires keyed - 2 * h.capacity <= b < keyed - h.capacity
    ensures entries <= EntryOf(Grown(h, keyed - 1, entries), b) < entries + h.capacity
  {
    hide IsCapacity;
    var g, j := Grown(h, keyed - 1, entries), b - (keyed - h.capacity);
    ModSum(h.capacity - keyed, b, g.capacity);
    ModPlusOnce(j, g.capacity);
    SmallMod(j + g.capacity, g.capacity);
  }

  lemma GrownIndex(h: Header, entries: nat, keyed: nat, j: nat)
    requires HeaderOk(h, entries) && h.capacity > 0 && j < 2 * h.capacity
    ensures var g := Grown(h, keyed - 1, entries);
            && (h.tail + 1 + j) % h.capacity < h.capacity
            && g.index[j] == if j < h.capacity then h.index[(h.tail + 1 + j) % h.capacity] else entries + j - h.capacity
  {
  }

  lemma GrownIsOk(h: Header, entries: nat, keyed: nat)
    requires HeaderOk(h, entries) && h.capacity > 0 && 2 * h.capacity * BLOCK_SIZE <= HALF
    ensures HeaderOk(Grown(h, keyed - 1, entries), entries + h.capacity)
  {
    hide IsCapacity;
    var g := Grown(h, keyed - 1, entries);
    DoubleIsCapacity(h.capacity);
    forall j | 0 <= j < g.capacity
      ensures g.index[j] < entries + h.capacity
    {
      GrownIndex(h, entries, keyed, j);
    }
    forall j, k | 0 <= j < k < g.capacity
      ensures g.index[j] != g.index[k]
    {
      GrownIndex(h, entries, keyed, j);
      GrownIndex(h, entries, keyed, k);
      if k < h.capacity {
        GrownDistinct(h, entries, j, k);
      }
    }
  }

  lemma GrownDistinct(h: Header, entries: nat, j: nat, k: nat)
    requires HeaderOk(h, entries) && j < k < h.capacity
    ensures (h.tail + 1 + j) % h.capacity < h.capacity && (h.tail + 1 + k) % h.capacity < h.capacity
    ensures h.index[(h.tail + 1 + j) % h.capacity] != h.index[(h.tail + 1 + k) % h.capacity]
  {
    var a, b := (h.tail + 1 + j) % h.capacity, (h.tail + 1 + k) % h.capacity;
    if a == b {
      ModUnique(h.tail + 1 + j, h.tail + 1 + k, h.capacity);
    }
    if a < b {
      assert h.index[a] != h.index[b];
    } else {
      assert h.index[b] != h.index[a];
    }
  }

  /** Doubling the ring when the slot after the tail is taken keeps every block where it was, in the old
      headers too. */
  lemma RingGrow(headers: seq<Header>, keys: seq<Word>, keyed: nat, lo: int, headers': seq<Header>, keys': seq<Word>)
    requires Ring(headers, keys, keyed, lo, keyed) && lo <= keyed - Last(headers).capacity
    requires 2 * Last(headers).capacity * BLOCK_SIZE <= HALF
    requires var h := Last(headers);
             && headers' == headers[|headers| - 1 := h.(top := keyed)] + [Grown(h, keyed - 1, |keys|)]
             && keys' == keys + seq(h.capacity, _ => INVALID_BLOCK_BASE)
    ensures Ring(headers', keys', keyed, keyed - Last(headers).capacity, keyed)
    ensures Floor(headers', keyed, keyed - Last(headers).capacity) == keyed - Last(headers).capacity == Floor(headers, keyed, lo)
    ensures forall b: int :: keyed - Last(headers).capacity <= b < keyed ==>
              EntryOf(Last(headers'), b) == EntryOf(Last(headers), b)
  {
    hide IsCapacity, Grown, EntryOf, Slot;
    var h, g, lo' := Last(headers), Last(headers'), keyed - Last(headers).capacity;
    ShapeLast(headers, |keys|);
    GrownIsOk(h, |keys|, keyed);
    GrownTail(h, |keys|, keyed);
    forall b: int | lo' <= b < keyed
      ensures EntryOf(g, b) == EntryOf(h, b)
    {
      GrownKeeps(h, |keys|, keyed, b);
    }
    GrownShape(headers, keys, keyed, headers', keys');
    GrownKeys(headers, keys, keyed, lo, g, keys');
    forall i: nat, b: int | i < |headers'| && Floor(headers', keyed, lo') <= b < Top(headers', keyed, i)
      ensures Knows(headers', i, b)
    {
      if i < |headers| {
        assert Knows(headers, i, b);
        SameEntries(h, keyed, b);
      }
    }
    GrownTails(headers, keyed, headers');
  }

  lemma SameEntries(h: Header, top: nat, b: int)
    ensures EntryOf(h.(top := top), b) == EntryOf(h, b) && Slot(h.(top := top), b) == Slot(h, b)
  {
  }

  lemma GrownTail(h: Header, entries: nat, keyed: nat)
    requires HeaderOk(h, entries) && h.capacity > 0 && h.tail == Slot(h, keyed - 1)
    ensures var g := Grown(h, keyed - 1, entries);
            g.capacity == 2 * h.capacity && g.tail == h.capacity - 1 == Slot(g, keyed - 1)
  {
    hide IsCapacity;
    GrownKeeps(h, entries, keyed, keyed - 1);
  }

  lemma GrownTails(headers: seq<Header>, keyed: nat, headers': seq<Header>)
    requires headers != [] && TailsOk(headers, keyed, keyed) && |headers'| == |headers| + 1
    requires forall i :: 0 <= i < |headers| - 1 ==> headers'[i] == headers[i]
    requires headers'[|headers| - 1] == Last(headers).(top := keyed)
    requires Last(headers').tail == Slot(Last(headers'), keyed - 1)
    ensures TailsOk(headers', keyed, keyed)
  {
    SameEntries(Last(headers), keyed, keyed - 1);
  }

  lemma GrownShape(headers: seq<Header>, keys: seq<Word>, keyed: nat, headers': seq<Header>, keys': seq<Word>)
    requires Shape(headers, |keys|) && |headers'| == |headers| + 1 && |keys'| >= |keys|
    requires forall i :: 0 <= i < |headers| - 1 ==> headers'[i] == headers[i]
    requires headers'[|headers| - 1] == Last(headers).(top := keyed)
    requires HeaderOk(Last(headers'), |keys'|)
    ensures Shape(headers', |keys'|)
  {
    hide IsCapacity;
    forall i | 0 <= i < |headers'|
      ensures HeaderOk(headers'[i], |keys'|)
    {
      if i < |headers| {
        assert HeaderOk(headers[i], |keys|);
      }
    }
  }

  lemma GrownKeys(headers: seq<Header>, keys: seq<Word>, keyed: nat, lo: int, g: Header, keys': seq<Word>)
    requires Shape(headers, |keys|) && Keys(Last(headers), keys, keyed, lo) && lo <= keyed - Last(headers).capacity
    requires Last(headers).tail == Slot(Last(headers), keyed - 1)
    requires g == Grown(Last(headers), keyed - 1, |keys|)
    requires keys' == keys + seq(Last(headers).capacity, _ => INVALID_BLOCK_BASE)
    ensures Keys(g, keys', keyed, keyed - Last(headers).capacity)
  {
    hide IsCapacity, Base, EntryOf, Slot;
    var h := Last(headers);
    var lo' := keyed - h.capacity;
    ShapeLast(headers, |keys|);
    forall b: int | keyed - g.capacity <= b < keyed
      ensures KeyOk(g, keys', lo', b)
    {
      if b >= lo' {
        GrownKeeps(h, |keys|, keyed, b);
        assert KeyOk(h, keys, lo, b);
      } else {
        GrownAdds(h, |keys|, keyed, b);
      }
    }
  }
}
