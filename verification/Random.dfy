/** Random delays: xorshift on two words, and rejection sampling for a range. */
module Random {
  import opened Wrappers
  import opened Words

  const WORD: nat := 0x1_0000_0000
  const INT_MAX: int := 0x7FFF_FFFF
  const INT_MIN: int := -0x8000_0000

  // ---------------------------------------------------------------- which words are accepted

  /** (-n) % n on 32-bit words. */
  function Threshold(n: nat): nat
    requires 0 < n < WORD
  {
    (WORD - n) % n
  }

  /** How many words r with lo <= r < hi leave remainder k. */
  function CountResidue(lo: nat, hi: nat, n: nat, k: nat): nat
    requires n > 0
    decreases hi - lo
  {
    if lo >= hi then 0 else (if lo % n == k then 1 else 0) + CountResidue(lo + 1, hi, n, k)
  }

  lemma {:induction false} CountSplit(lo: nat, mid: nat, hi: nat, n: nat, k: nat)
    requires n > 0 && lo <= mid <= hi
    ensures CountResidue(lo, hi, n, k) == CountResidue(lo, mid, n, k) + CountResidue(mid, hi, n, k)
    decreases mid - lo
  {
    if lo < mid {
      CountSplit(lo + 1, mid, hi, n, k);
    }
  }

  lemma {:induction false} FirstResidues(lo: nat, n: nat, k: nat)
    requires k < n && lo <= n
    ensures CountResidue(lo, n, n, k) == if lo <= k then 1 else 0
    decreases n - lo
  {
    if lo < n {
      SmallRemainder(lo, n);
      FirstResidues(lo + 1, n, k);
    }
  }

  lemma SmallRemainder(x: nat, n: nat)
    requires x < n
    ensures x % n == x
  {
  }

  /** Any n words in a row have each remainder once. */
  lemma {:induction false} OnePerPeriod(lo: nat, n: nat, k: nat)
    requires k < n
    ensures CountResidue(lo, lo + n, n, k) == 1
    decreases lo
  {
    if lo == 0 {
      FirstResidues(0, n, k);
    } else {
      OnePerPeriod(lo - 1, n, k);
      ModPlusOnce(lo - 1, n);
      CountSplit(lo - 1, lo, lo - 1 + n, n, k);
      CountSplit(lo, lo - 1 + n, lo + n, n, k);
    }
  }

  lemma {:induction false} PerPeriods(lo: nat, q: nat, n: nat, k: nat)
    requires k < n
    ensures CountResidue(lo, lo + q * n, n, k) == q
    decreases q
  {
    if q > 0 {
      assert q * n == n + (q - 1) * n;
      OnePerPeriod(lo, n, k);
      PerPeriods(lo + n, q - 1, n, k);
      CountSplit(lo, lo + n, lo + q * n, n, k);
    }
  }

  /** The threshold is 2^32 mod n, and of the words that pass it each remainder has exactly floor(2^32 / n). */
  lemma NoResidueIsFavoured(n: nat, k: nat)
    requires k < n < WORD
    ensures Threshold(n) == WORD % n
    ensures CountResidue(Threshold(n), WORD, n, k) == WORD / n
  {
    WholePeriods(WORD, n);
    PerPeriods(WORD % n, WORD / n, n, k);
  }

  lemma WholePeriods(w: nat, n: nat)
    requires 0 < n < w
    ensures (w - n) % n == w % n && w % n + (w / n) * n == w
  {
    ModPlusOnce(w - n, n);
  }

  // ---------------------------------------------------------------- the generator

  function Xor(a: bv32, b: bv32): bv32 {
    a ^ b
  }

  function Right7(d: bv32): bv32 {
    d >> 7
  }

  function Right16(d: bv32): bv32 {
    d >> 16
  }

  /** s1 ^= s1 << 17 */
  function Twist(s1: bv32): bv32 {
    s1 ^ (s1 << 17)
  }

  function Spread(s1: bv32): bv32 {
    Xor(s1, Right7(s1))
  }

  function Low(s0: bv32): bv32 {
    Xor(s0, Right16(s0))
  }

  /** s1 ^ s0 ^ s1 >> 7 ^ s0 >> 16, sorted by word. */
  function Fold(s1: bv32, s0: bv32): bv32 {
    Xor(Spread(s1), Low(s0))
  }

  lemma FoldIs(s1: bv32, s0: bv32)
    ensures Xor(Xor(Xor(s1, s0), Right7(s1)), Right16(s0)) == Fold(s1, s0)
  {
    hide Xor, Right7, Right16;
    XorAssociates(Xor(s1, s0), Right7(s1), Right16(s0));
    XorSwaps(s1, s0, Right7(s1), Right16(s0));
  }

  /** The words one_ and two_ after a draw. */
  function Advance(s: (bv32, bv32)): (bv32, bv32) {
    (s.1, Fold(Twist(s.0), s.1))
  }

  function StateAfter(one: bv32, two: bv32, k: nat): (bv32, bv32) {
    if k == 0 then (one, two) else Advance(StateAfter(one, two, k - 1))
  }

  /** The word that a draw yields in the state it leaves behind. */
  function Sum(one: bv32, two: bv32): bv32 {
    one + two
  }

  function Value(r: bv32): (x: nat)
    ensures x < WORD
  {
    r as nat
  }

  /** The word of draw k, counted from 0. */
  function WordAt(one: bv32, two: bv32, k: nat): nat {
    Value(Sum(StateAfter(one, two, k + 1).0, StateAfter(one, two, k + 1).1))
  }

  // ---- a draw loses nothing: it is a permutation of the states that only the zero state stays at

  lemma XorIsZero(a: bv32, b: bv32)
    ensures Xor(a, b) == 0 <==> a == b
  {
  }

  lemma XorCancels(a: bv32, b: bv32, c: bv32)
    ensures Xor(a, c) == Xor(b, c) <==> a == b
  {
  }

  lemma XorSwaps(a: bv32, b: bv32, c: bv32, d: bv32)
    ensures Xor(Xor(a, b), Xor(c, d)) == Xor(Xor(a, c), Xor(b, d))
  {
    hide Xor;
    XorAssociates(a, b, Xor(c, d));
    XorAssociates(b, c, d);
    XorCommutes(b, c);
    XorAssociates(c, b, d);
    XorAssociates(a, c, Xor(b, d));
  }

  lemma XorsOf(a: bv32, b: bv32, c: bv32, d: bv32)
    ensures a ^ b ^ c ^ d == Xor(Xor(Xor(a, b), c), d)
  {
  }

  lemma XorCommutes(a: bv32, b: bv32)
    ensures Xor(a, b) == Xor(b, a)
  {
  }

  lemma XorAssociates(a: bv32, b: bv32, c: bv32)
    ensures Xor(Xor(a, b), c) == Xor(a, Xor(b, c))
  {
  }

  lemma RightDistributes(a: bv32, b: bv32)
    ensures Xor(Right7(a), Right7(b)) == Right7(Xor(a, b))
  {
  }

  lemma SpreadIsZero(a: bv32)
    requires Spread(a) == 0
    ensures a == 0
  {
  }

  lemma TwistIsInjective(a: bv32, b: bv32)
    requires Twist(a) == Twist(b)
    ensures a == b
  {
  }

  lemma SpreadIsInjective(a: bv32, b: bv32)
    requires Spread(a) == Spread(b)
    ensures a == b
  {
    hide Xor, Right7;
    XorSwaps(a, Right7(a), b, Right7(b));
    RightDistributes(a, b);
    XorIsZero(Spread(a), Spread(b));
    SpreadIsZero(Xor(a, b));
    XorIsZero(a, b);
  }

  lemma FoldIsInjective(a: bv32, b: bv32, s0: bv32)
    requires Fold(a, s0) == Fold(b, s0)
    ensures a == b
  {
    hide Xor, Spread, Low;
    XorCancels(Spread(a), Spread(b), Low(s0));
    SpreadIsInjective(a, b);
  }

  lemma AdvanceIsInjective(s: (bv32, bv32), t: (bv32, bv32))
    requires Advance(s) == Advance(t)
    ensures s == t
  {
    hide Twist, Fold;
    FoldIsInjective(Twist(s.0), Twist(t.0), s.1);
    TwistIsInjective(s.0, t.0);
  }

  /** Two generators in different states are in different states after every number of draws: no draw ever
      merges two sequences. */
  lemma {:induction false} StatesStayDistinct(one: bv32, two: bv32, one': bv32, two': bv32, k: nat)
    ensures StateAfter(one, two, k) == StateAfter(one', two', k) <==> (one, two) == (one', two')
  {
    hide Advance;
    if k > 0 && StateAfter(one, two, k) == StateAfter(one', two', k) {
      AdvanceIsInjective(StateAfter(one, two, k - 1), StateAfter(one', two', k - 1));
    }
    if k > 0 {
      StatesStayDistinct(one, two, one', two', k - 1);
    }
  }

  lemma ZeroAdvances()
    ensures Advance((0, 0)) == (0, 0)
  {
  }

  lemma {:induction false} ZeroStays(k: nat)
    ensures StateAfter(0, 0, k) == (0, 0)
  {
    hide Advance;
    ZeroAdvances();
    if k > 0 {
      ZeroStays(k - 1);
    }
  }

  /** A generator is in the zero state after some number of draws exactly when it was seeded with it. */
  lemma ZeroStateIffSeededZero(one: bv32, two: bv32, k: nat)
    ensures StateAfter(one, two, k) == (0, 0) <==> one == 0 && two == 0
  {
    hide StateAfter;
    ZeroStays(k);
    StatesStayDistinct(one, two, 0, 0, k);
  }

  lemma SumOfZero()
    ensures Value(Sum(0, 0)) == 0
  {
  }

  /** With the zero seed, which the constructor does not rule out, fastrand_n never returns exactly when n does
      not divide 2^32. */
  lemma ZeroSeedNeverPassesIff(n: nat)
    requires 0 < n < WORD
    ensures (forall k :: WordAt(0, 0, k) < Threshold(n)) <==> WORD % n != 0
  {
    hide StateAfter, Value, Sum;
    WholePeriods(WORD, n);
    SumOfZero();
    forall k: nat
      ensures WordAt(0, 0, k) == 0
    {
      ZeroStays(k + 1);
    }
    assert WordAt(0, 0, 0) == 0;
  }

  lemma StateAfterOne(one: bv32, two: bv32)
    ensures StateAfter(one, two, 1) == Advance((one, two))
  {
    hide Advance;
    assert StateAfter(one, two, 0) == (one, two);
  }

  /** The shifts are by 17 to the left and by 7 and 16 to the right: what becomes of a given seed. */
  lemma TwoDraws()
    ensures StateAfter(1, 0x1_0000, 1) == (0x10000, 0x30400)
    ensures StateAfter(1, 0x1_0000, 2) == (0x30400, 0x20603)
  {
    assert StateAfter(1, 0x1_0000, 0) == (1, 0x1_0000);
    assert Advance((1, 0x1_0000)) == (0x10000, 0x30400);
    assert Advance((0x10000, 0x30400)) == (0x30400, 0x20603);
  }

  class FastRand {
    var one: bv32
    var two: bv32

    constructor (one: bv32, two: bv32)
      ensures this.one == one && this.two == two
    {
      this.one, this.two := one, two;
    }

    method Fastrand() returns (r: bv32)
      modifies this
      ensures (one, two) == StateAfter(old(one), old(two), 1) && r == Sum(one, two)
      ensures (one, two) == (0, 0) <==> (old(one), old(two)) == (0, 0)
    {
      hide Twist, Fold, StateAfter, Sum;
      ZeroStateIffSeededZero(one, two, 1);
      StateAfterOne(one, two);
      var s1, s0 := one, two;
      s1 := XorShifted(s1);
      s1 := XorFolded(s1, s0);
      one := s0;
      two := s1;
      r := Added(s0, s1);
    }

    static method Added(s0: bv32, s1: bv32) returns (r: bv32)
      ensures r == Sum(s0, s1)
    {
      r := s0 + s1;
    }

    static method XorShifted(s1: bv32) returns (r: bv32)
      ensures r == Twist(s1)
    {
      r := s1;
      r := r ^ (r << 17);
    }

    static method XorFolded(s1: bv32, s0: bv32) returns (r: bv32)
      ensures r == Fold(s1, s0)
    {
      hide Fold, Xor, Right7, Right16;
      FoldIs(s1, s0);
      XorsOf(s1, s0, Right7(s1), Right16(s0));
      r := s1 ^ s0 ^ Right7(s1) ^ Right16(s0);
    }

    /** Draws until a word passes the threshold, at most `tries` times: the first word that passes gives the
        result. `k` is the number of words that did not. */
    method FastrandN(n: nat, tries: nat) returns (r: Option<nat>, ghost k: nat)
      requires 0 < n < WORD
      modifies this
      ensures k <= tries && forall j :: 0 <= j < k ==> WordAt(old(one), old(two), j) < Threshold(n)
      ensures r.None? <==> k == tries
      ensures r.Some? ==>
                && Threshold(n) <= WordAt(old(one), old(two), k) < WORD && r.value == WordAt(old(one), old(two), k) % n
                && (one, two) == StateAfter(old(one), old(two), k + 1)
    {
      hide Value, Threshold, Sum, Advance;
      var threshold := Threshold(n);
      r, k := None, 0;
      var i := 0;
      while i < tries
        invariant i <= tries && k == i && (one, two) == StateAfter(old(one), old(two), i)
        invariant forall j :: 0 <= j < i ==> WordAt(old(one), old(two), j) < threshold
      {
        StateAfterOne(one, two);
        var draw := Fastrand();
        var x := Value(draw);
        if x >= threshold {
          return Some(x % n), i;
        }
        i, k := i + 1, k + 1;
      }
    }

    /** min + fastrand_n(max - min + 1); a wider range would overflow int32_t. */
    method RandRange(min: int, max: int, tries: nat) returns (r: Option<int>, ghost k: nat)
      requires INT_MIN <= min <= max <= INT_MAX && max - min + 1 <= INT_MAX
      modifies this
      ensures r.None? <==> k == tries
      ensures r.Some? ==> min <= r.value <= max && r.value == min + WordAt(old(one), old(two), k) % (max - min + 1)
      ensures k <= tries && forall j :: 0 <= j < k ==> WordAt(old(one), old(two), j) < Threshold(max - min + 1)
    {
      var d;
      d, k := FastrandN(max - min + 1, tries);
      r := if d.Some? then Some(min + d.value) else None;
    }
  }
}
