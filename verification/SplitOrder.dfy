/** Split ordering (include/lockfree_hash_map.hpp:197-239): keys are ordered by the reversed bits of
    their hash, so that for every bucket count 2^k the members of a bucket are contiguous. */
module SplitOrder {
  const WORD: nat := 32

  function Pow2(n: nat): (p: nat)
    ensures p >= 1
  {
    if n == 0 then 1 else 2 * Pow2(n - 1)
  }

  lemma {:induction false} Pow2Adds(a: nat, b: nat)
    ensures Pow2(a + b) == Pow2(a) * Pow2(b)
  {
    if a > 0 {
      Pow2Adds(a - 1, b);
      assert Pow2(a + b) == 2 * Pow2(a - 1 + b);
    }
  }

  lemma {:induction false} Pow2Grows(a: nat, b: nat)
    requires a <= b
    ensures Pow2(a) <= Pow2(b)
  {
    if a < b { Pow2Grows(a, b - 1); }
  }

  /** The low `n` bits of `v`, in reverse. */
  function Reverse(v: nat, n: nat): (r: nat)
    ensures r < Pow2(n)
  {
    if n == 0 then 0 else (if v % 2 == 1 then Pow2(n - 1) else 0) + Reverse(v / 2, n - 1)
  }

  /** Bit `i` of `v`. */
  function Bit(v: nat, i: nat): bool {
    if i == 0 then v % 2 == 1 else Bit(v / 2, i - 1)
  }

  // ---------------------------------------------------------------- reversal

  lemma {:induction false} BitOfTop(v: nat, n: nat, i: nat)
    requires v < Pow2(n)
    ensures Bit(v + Pow2(n), i) == (i == n || Bit(v, i))
    ensures i >= n ==> !Bit(v, i)
  {
    if n == 0 {
      BitOfZero(i);
      if i > 0 { BitOfZero(i - 1); }
    } else if i > 0 {
      assert (v + Pow2(n)) / 2 == v / 2 + Pow2(n - 1);
      BitOfTop(v / 2, n - 1, i - 1);
    }
  }

  lemma {:induction false} BitOfZero(i: nat)
    ensures !Bit(0, i)
  {
    if i > 0 { BitOfZero(i - 1); }
  }

  /** Bit `i` of a word comes from bit `n - 1 - i`. */
  lemma {:induction false} ReverseBit(v: nat, n: nat, i: nat)
    requires i < n
    ensures Bit(Reverse(v, n), i) == Bit(v, n - 1 - i)
  {
    var r := Reverse(v / 2, n - 1);
    BitOfTop(r, n - 1, i);
    if i < n - 1 {
      ReverseBit(v / 2, n - 1, i);
    }
  }

  /** Numbers below 2^n with the same bits are the same. */
  lemma {:induction false} SameBits(a: nat, b: nat, n: nat)
    requires a < Pow2(n) && b < Pow2(n)
    requires forall i: nat :: i < n ==> Bit(a, i) == Bit(b, i)
    ensures a == b
  {
    if n > 0 {
      assert Bit(a, 0) == Bit(b, 0);
      forall i: nat | i < n - 1 ensures Bit(a / 2, i) == Bit(b / 2, i) {
        assert Bit(a, i + 1) == Bit(b, i + 1);
      }
      SameBits(a / 2, b / 2, n - 1);
    }
  }

  /** Reversing twice gives back the word. */
  lemma ReverseTwice(v: nat, n: nat)
    requires v < Pow2(n)
    ensures Reverse(Reverse(v, n), n) == v
  {
    forall i: nat | i < n ensures Bit(Reverse(Reverse(v, n), n), i) == Bit(v, i) {
      ReverseBit(Reverse(v, n), n, i);
      ReverseBit(v, n, n - 1 - i);
    }
    SameBits(Reverse(Reverse(v, n), n), v, n);
  }

  lemma ReverseInjective(a: nat, b: nat, n: nat)
    requires a < Pow2(n) && b < Pow2(n) && Reverse(a, n) == Reverse(b, n)
    ensures a == b
  {
    ReverseTwice(a, n);
    ReverseTwice(b, n);
  }

  lemma {:induction false} ReverseLow(v: nat, n: nat)
    ensures Reverse(v % Pow2(n), n) == Reverse(v, n)
  {
    if n > 0 {
      HalfMod(v, n);
      ReverseLow(v / 2, n - 1);
    }
  }

  lemma HalfMod(v: nat, n: nat)
    requires n > 0
    ensures (v % Pow2(n)) % 2 == v % 2 && (v % Pow2(n)) / 2 == (v / 2) % Pow2(n - 1)
  {
    var p, q := Pow2(n - 1), v / Pow2(n);
    var r := v % Pow2(n);
    assert v == 2 * (p * q) + r;
    assert v / 2 == p * q + r / 2 && r / 2 < p;
    ModOf(v / 2, p, q, r / 2);
  }

  lemma Smaller(p: nat, q: int, r: int, q': int, r': int)
    requires q < q' && r < p && 0 <= r'
    ensures p * q + r < p * q' + r'
  {
    calc {
      p * q + r;
    <
      p * q + p;
    ==
      p * (q + 1);
    <=  { MulKeepsOrder(p, q + 1, q'); }
      p * q';
    }
  }

  lemma MulKeepsOrder(p: nat, a: int, b: int)
    requires a <= b
    ensures p * a <= p * b
  {
  }

  /** Quotient and remainder are unique. */
  lemma ModOf(x: nat, p: nat, q: nat, r: nat)
    requires x == p * q + r && r < p
    ensures x % p == r && x / p == q
  {
    if q < x / p {
      Smaller(p, q, r, x / p, x % p);
    } else if x / p < q {
      Smaller(p, x / p, x % p, q, r);
    }
  }

  /** The top `k` bits of the reversed word are the low `k` bits, reversed. */
  lemma {:induction false} ReverseTop(v: nat, n: nat, k: nat)
    requires k <= n
    ensures Reverse(v, n) / Pow2(n - k) == Reverse(v, k)
  {
    if k == 0 {
      ModOf(Reverse(v, n), Pow2(n), 0, Reverse(v, n));
    } else {
      ReverseTop(v / 2, n - 1, k - 1);
      assert (n - 1) - (k - 1) == n - k;
      Pow2Adds(n - k, k - 1);
      DivideSum(Pow2(n - k), if v % 2 == 1 then Pow2(k - 1) else 0, Reverse(v / 2, n - 1));
    }
  }

  lemma DivideSum(p: nat, a: nat, b: nat)
    requires p > 0
    ensures (p * a + b) / p == a + b / p
  {
    assert p * (a + b / p) == p * a + p * (b / p);
    ModOf(p * a + b, p, a + b / p, b % p);
  }

  lemma {:induction false} ReverseShort(b: nat, n: nat, k: nat)
    requires k <= n && b < Pow2(k)
    ensures Reverse(b, n) == Pow2(n - k) * Reverse(b, k)
  {
    if k == 0 {
      ReverseZero(n);
    } else {
      assert (n - 1) - (k - 1) == n - k;
      ReverseShort(b / 2, n - 1, k - 1);
      Pow2Adds(n - k, k - 1);
      Distributes(Pow2(n - k), if b % 2 == 1 then Pow2(k - 1) else 0, Reverse(b / 2, k - 1));
    }
  }

  lemma Distributes(p: nat, a: nat, b: nat)
    ensures p * (a + b) == p * a + p * b && p * 0 == 0
  {
  }

  lemma {:induction false} ReverseZero(n: nat)
    ensures Reverse(0, n) == 0
  {
    if n > 0 { ReverseZero(n - 1); }
  }

  // ---------------------------------------------------------------- keys and buckets

  /** Sentinels have even keys. */
  function BucketKey(b: nat): nat { 2 * Reverse(b, WORD) }

  /** Data nodes have the odd key of their hash. */
  function DataKey(h: nat): nat { 2 * Reverse(h, WORD) + 1 }

  /** The bucket of a hash among `count` buckets, a power of two: its low bits. */
  function BucketOf(h: nat, count: nat): nat
    requires count > 0
  {
    h % count
  }

  /** Taking the remainder is masking: `hash & (count - 1)`. */
  lemma {:induction false} BucketOfMasks(h: nat, k: nat, i: nat)
    ensures Bit(BucketOf(h, Pow2(k)), i) == (i < k && Bit(h, i))
  {
    if k == 0 {
      BitOfZero(i);
    } else {
      HalfMod(h, k);
      if i > 0 { BucketOfMasks(h / 2, k - 1, i - 1); }
    }
  }

  lemma InBlock(x: nat, p: nat, q: nat)
    requires p > 0
    ensures x / p == q <==> p * q <= x < p * q + p
  {
    if p * q <= x < p * q + p {
      ModOf(x, p, q, x - p * q);
    }
  }

  /** With 2^k buckets a hash belongs to bucket `b` exactly if its key lies strictly between the
      sentinel's key and that key plus 2^(33 - k): each bucket is one contiguous stretch. */
  lemma BucketInterval(h: nat, b: nat, k: nat)
    requires k <= WORD && b < Pow2(k)
    ensures BucketOf(h, Pow2(k)) == b <==> BucketKey(b) < DataKey(h) < BucketKey(b) + Pow2(WORD + 1 - k)
  {
    var p := Pow2(WORD - k);
    ReverseTop(h, WORD, k);
    ReverseShort(b, WORD, k);
    InBlock(Reverse(h, WORD), p, Reverse(b, k));
    ReverseLow(h, k);
    if Reverse(h, k) == Reverse(b, k) {
      ReverseInjective(h % Pow2(k), b, k);
    }
    assert Pow2(WORD + 1 - k) == 2 * p;
  }

  lemma ModDouble(h: nat, p: nat, m: nat, q: nat, r: nat)
    requires p > 0 && m == 2 * p && h == m * q + r && r < m
    ensures h % p == if r < p then r else r - p
  {
    TwiceOf(p, q);
    if r < p {
      ModOf(h, p, 2 * q, r);
    } else {
      Distributes(p, 2 * q, 1);
      ModOf(h, p, 2 * q + 1, r - p);
    }
  }

  lemma TwiceOf(p: nat, q: nat)
    ensures (2 * p) * q == p * (2 * q)
  {
  }

  lemma Euclid(h: nat, m: nat) returns (q: nat, r: nat)
    requires m > 0
    ensures h == m * q + r && r < m && r == h % m
  {
    q, r := h / m, h % m;
  }

  lemma Remainders(h: nat, p: nat, m: nat)
    requires p > 0 && m == 2 * p
    ensures h % p == if h % m < p then h % m else h % m - p
    ensures h % m < m
  {
    var q, r := Euclid(h, m);
    ModDouble(h, p, m, q, r);
  }

  /** Doubling the buckets splits bucket `b` into exactly `b` and `b + 2^k`. */
  lemma DoublingSplits(h: nat, b: nat, k: nat)
    requires k < WORD && b < Pow2(k)
    ensures BucketOf(h, Pow2(k)) == b <==> BucketOf(h, Pow2(k + 1)) in {b, b + Pow2(k)}
    ensures BucketKey(b + Pow2(k)) == BucketKey(b) + Pow2(WORD - k)
  {
    assert Pow2(k + 1) == 2 * Pow2(k) && Pow2(WORD - k) == 2 * Pow2(WORD - 1 - k);
    ReverseAddTop(b, k, WORD);
    hide Reverse, Pow2;
    var p := Pow2(k);
    Remainders(h, p, Pow2(k + 1));
    hide BucketOf;
    assert BucketOf(h, p) == h % p && BucketOf(h, Pow2(k + 1)) == h % Pow2(k + 1) by {
      BucketIsMod(h, p);
      BucketIsMod(h, Pow2(k + 1));
    }
  }

  lemma BucketIsMod(h: nat, count: nat)
    requires count > 0
    ensures BucketOf(h, count) == h % count
  {
  }

  lemma {:induction false} ReverseAddTop(v: nat, j: nat, n: nat)
    requires j < n && v < Pow2(j)
    ensures Reverse(v + Pow2(j), n) == Reverse(v, n) + Pow2(n - 1 - j)
  {
    if j > 0 {
      assert (v + Pow2(j)) / 2 == v / 2 + Pow2(j - 1);
      ReverseAddTop(v / 2, j - 1, n - 1);
    } else {
      ReverseZero(n - 1);
      ReverseZero(n);
    }
  }

  // ---------------------------------------------------------------- parents

  /** The place of the most significant set bit. */
  function TopBit(b: nat): (j: nat)
    requires b > 0
    ensures Pow2(j) <= b < Pow2(j + 1)
  {
    if b == 1 then 0 else TopBit(b / 2) + 1
  }

  /** The bucket with its most significant set bit cleared. */
  function ParentOf(b: nat): (p: nat)
    requires b > 0
    ensures p < b && p < Pow2(TopBit(b))
  {
    b - Pow2(TopBit(b))
  }

  lemma ParentClearsTop(b: nat, i: nat)
    requires b > 0
    ensures Bit(ParentOf(b), i) == (Bit(b, i) && i != TopBit(b))
  {
    BitOfTop(ParentOf(b), TopBit(b), i);
    BitOfTop(ParentOf(b), TopBit(b), TopBit(b));
  }

  lemma TopBitBelow(b: nat, n: nat)
    requires 0 < b < Pow2(n)
    ensures TopBit(b) < n
  {
    if n <= TopBit(b) { Pow2Grows(n, TopBit(b)); }
  }

  lemma ParentReversed(b: nat, n: nat)
    requires 0 < b < Pow2(n)
    ensures Reverse(ParentOf(b), n) < Reverse(b, n)
  {
    TopBitBelow(b, n);
    ReverseAddTop(ParentOf(b), TopBit(b), n);
  }

  /** The parent's sentinel sorts before the bucket's own. */
  lemma ParentSortsBefore(b: nat)
    requires 0 < b < Pow2(WORD)
    ensures BucketKey(ParentOf(b)) < BucketKey(b)
  {
    ParentReversed(b, WORD);
    hide Reverse, ParentOf, Pow2;
  }

  function PopCount(b: nat): nat {
    if b == 0 then 0 else b % 2 + PopCount(b / 2)
  }

  lemma {:induction false} PopCountAddTop(v: nat, j: nat)
    requires v < Pow2(j)
    ensures PopCount(v + Pow2(j)) == PopCount(v) + 1
  {
    if j == 0 {
      assert PopCount(1) == 1 + PopCount(0);
    } else {
      assert (v + Pow2(j)) / 2 == v / 2 + Pow2(j - 1) && (v + Pow2(j)) % 2 == v % 2;
      PopCountAddTop(v / 2, j - 1);
    }
  }

  lemma {:induction false} PopCountBound(b: nat, n: nat)
    requires b < Pow2(n)
    ensures PopCount(b) <= n
  {
    if b > 0 { PopCountBound(b / 2, n - 1); }
  }

  /** Clearing bit after bit reaches bucket 0 in as many steps as there are set bits. */
  lemma ParentPopCount(b: nat)
    requires b > 0
    ensures PopCount(b) == PopCount(ParentOf(b)) + 1
  {
    PopCountAddTop(ParentOf(b), TopBit(b));
  }

  lemma BucketKeyInjective(a: nat, b: nat)
    requires a < Pow2(WORD) && b < Pow2(WORD) && BucketKey(a) == BucketKey(b)
    ensures a == b
  {
    ReverseInjective(a, b, WORD);
  }

  lemma BucketKeyZero()
    ensures BucketKey(0) == 0
  {
    ReverseZero(WORD);
  }

  lemma BucketKeyPositive(b: nat)
    requires 0 < b < Pow2(WORD)
    ensures BucketKey(0) == 0 < BucketKey(b)
  {
    ReverseZero(WORD);
    if BucketKey(b) == 0 { BucketKeyInjective(0, b); }
  }

  /** A bucket's sentinel sorts before all its members. */
  lemma MemberAfterSentinel(h: nat, k: nat)
    requires k <= WORD
    ensures BucketOf(h, Pow2(k)) < Pow2(k) && BucketKey(BucketOf(h, Pow2(k))) < DataKey(h)
  {
    BucketInterval(h, BucketOf(h, Pow2(k)), k);
  }
}
