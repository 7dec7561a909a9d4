/** index_t and size_t: 64-bit words. A counter is modelled by how far it has ever counted; the
    variable of the program holds that number modulo 2^64. */
module Words {
  const M: int := 0x1_0000_0000_0000_0000
  const HALF: int := 0x8000_0000_0000_0000

  type Word = x: int | 0 <= x < M

  function W(x: int): Word {
    x % M
  }

  function Minus(a: Word, b: Word): Word {
    (a - b) % M
  }

  /** circular_less_than */
  predicate Less(a: Word, b: Word) {
    Minus(a, b) > HALF
  }

  function Min(a: nat, b: nat): nat {
    if a < b then a else b
  }

  lemma ModPlusMultiple(x: int, k: int, n: int)
    requires n > 0
    ensures (x + k * n) % n == x % n
    decreases if k < 0 then -k else k
  {
    if k > 0 {
      ModPlusMultiple(x, k - 1, n);
      ModPlusOnce(x + (k - 1) * n, n);
      assert x + k * n == x + (k - 1) * n + n;
    } else if k < 0 {
      ModPlusMultiple(x, k + 1, n);
      ModPlusOnce(x + k * n, n);
      assert x + k * n + n == x + (k + 1) * n;
    }
  }

  lemma ModPlusOnce(x: int, n: int)
    requires n > 0
    ensures (x + n) % n == x % n
  {
    assert x == n * (x / n) + x % n;
    var q, r := x / n, x % n;
    assert x + n == n * (q + 1) + r;
    ModIs(x + n, q + 1, r, n);
  }

  lemma SmallMultiple(n: int, d: int)
    requires n > 0 && -n < n * d < n
    ensures d == 0
  {
    if d != 0 {
      LargeMultiple(n, d);
    }
  }

  lemma LargeMultiple(n: int, d: int)
    requires n > 0 && d != 0
    ensures n * d >= n || n * d <= -n
  {
    if d > 0 {
      GrowsWith(n, 1, d);
    } else {
      GrowsWith(n, d, -1);
    }
  }

  lemma GrowsWith(n: int, a: int, b: int)
    requires n > 0 && a <= b
    ensures n * a <= n * b
  {
  }

  lemma ModIs(x: int, q: int, r: int, n: int)
    requires n > 0 && 0 <= r < n && x == n * q + r
    ensures x % n == r && x / n == q
  {
    assert n * (x / n - q) == r - x % n;
    SmallMultiple(n, x / n - q);
  }

  /** Taking remainders before a difference changes nothing. */
  lemma MinusOfWords(a: int, b: int)
    ensures Minus(W(a), W(b)) == W(a - b)
  {
    ModPlusMultiple(a % M - b % M, a / M - b / M, M);
    assert a - b == a % M - b % M + (a / M - b / M) * M;
  }

  lemma SmallWord(x: int)
    ensures 0 <= x < M ==> W(x) == x
    ensures -M <= x < 0 ==> W(x) == x + M
  {
    if -M <= x < 0 {
      ModPlusOnce(x, M);
    }
  }

  /** circular_less_than compares two counters rightly exactly while they are less than half the range
      apart: at a distance of half the range it never says that the first is behind. */
  lemma LessIff(a: int, b: int)
    requires -M < a - b < M
    ensures (Less(W(a), W(b)) <==> a < b) <==> -HALF < a - b <= HALF
  {
    MinusOfWords(a, b);
    SmallWord(a - b);
  }

  // ---------------------------------------------------------------- positions in a ring

  lemma ModUnique(x: int, y: int, n: int)
    requires n > 0 && x % n == y % n && -n < x - y < n
    ensures x == y
  {
    assert x - y == n * (x / n - y / n);
    SmallMultiple(n, x / n - y / n);
  }

  lemma ModSum(x: int, y: int, n: int)
    requires n > 0
    ensures (x % n + y) % n == (x + y) % n
  {
    ModPlusMultiple(x % n + y, x / n, n);
    assert x + y == x % n + y + (x / n) * n;
  }
}
