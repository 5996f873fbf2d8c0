/** The parallel scans (include/parallel_scan.hpp): block totals, carries, then every block scanned from
    its carry. The tasks of a phase run in any interleaving, one element at a time, and the output may be
    the input. */
module ParallelScan {
  const MIN_PER_THREAD: nat := 25

  ghost predicate Associative<T(!new)>(op: (T, T) -> T) {
    forall a, b, c {:trigger op(op(a, b), c)} {:trigger op(a, op(b, c))} :: op(op(a, b), c) == op(a, op(b, c))
  }

  // ---------------------------------------------------------------- the sequential meaning

  /** op(...op(op(s[0], s[1]), s[2])...). */
  function Fold<T>(op: (T, T) -> T, s: seq<T>): T
    requires s != []
  {
    if |s| == 1 then s[0] else op(Fold(op, s[..|s| - 1]), s[|s| - 1])
  }

  /** The fold that starts from `init`. */
  function FoldFrom<T>(op: (T, T) -> T, init: T, s: seq<T>): T { Fold(op, [init] + s) }

  lemma FoldSnoc<T>(op: (T, T) -> T, s: seq<T>, n: nat)
    requires n < |s|
    ensures Fold(op, s[..n + 1]) == if n == 0 then s[0] else op(Fold(op, s[..n]), s[n])
  {
    assert s[..n + 1][..n] == s[..n];
  }

  lemma FoldFromSnoc<T>(op: (T, T) -> T, init: T, s: seq<T>, n: nat)
    requires n < |s|
    ensures Fold(op, [init] + s[..n + 1]) == op(Fold(op, [init] + s[..n]), s[n])
    ensures Fold(op, [init] + s[..0]) == init
  {
    assert ([init] + s[..n + 1])[..n + 1] == [init] + s[..n];
  }

  lemma {:induction false} FoldJoins<T(!new)>(op: (T, T) -> T, a: seq<T>, b: seq<T>)
    requires Associative(op) && a != [] && b != []
    ensures Fold(op, a + b) == op(Fold(op, a), Fold(op, b))
  {
    assert (a + b)[..|a + b| - 1] == a + b[..|b| - 1];
    if |b| == 1 {
      assert a + b[..0] == a;
    } else {
      FoldJoins(op, a, b[..|b| - 1]);
    }
  }

  lemma FoldFromJoins<T(!new)>(op: (T, T) -> T, init: T, a: seq<T>, b: seq<T>)
    requires Associative(op) && b != []
    ensures FoldFrom(op, init, a + b) == op(FoldFrom(op, init, a), Fold(op, b))
  {
    hide Fold, Associative;
    FoldJoins(op, [init] + a, b);
    assert [init] + (a + b) == ([init] + a) + b;
  }

  // ---------------------------------------------------------------- blocks

  function Threads(length: nat, hardware: nat): nat {
    var most := (length + MIN_PER_THREAD - 1) / MIN_PER_THREAD;
    var some := if hardware != 0 then hardware else 2;
    if some < most then some else most
  }

  /** Where block `i` of `k` begins; block `k` would begin at the end. */
  function Bound(length: nat, k: nat, i: nat): nat
    requires k > 0
  {
    if i >= k then length else i * (length / k)
  }

  /** Every block is non-empty and the blocks partition the range. */
  lemma BlocksPartition(length: nat, k: nat, i: nat)
    requires 0 < k <= length && i < k
    ensures Bound(length, k, 0) == 0 && Bound(length, k, k) == length
    ensures Bound(length, k, i) < Bound(length, k, i + 1) <= length
  {
    var size := length / k;
    assert size >= 1;
    assert (i + 1) * size == i * size + size;
    assert (i + 1) * size <= k * size <= length;
  }

  lemma ThreadsFit(length: nat, hardware: nat)
    requires length >= 2 * MIN_PER_THREAD
    ensures 0 < Threads(length, hardware) <= length
  {
  }

  lemma {:induction false} BoundsRise(length: nat, k: nat, i: nat, j: nat)
    requires 0 < k <= length && i <= j <= k
    ensures Bound(length, k, i) <= Bound(length, k, j) <= length
  {
    if i < j {
      BoundsRise(length, k, i, j - 1);
      BlocksPartition(length, k, j - 1);
    } else if i < k {
      BlocksPartition(length, k, i);
    }
  }

  /** A position lies in one block only. */
  lemma BlocksApart(length: nat, k: nat, i: nat, j: nat, p: nat)
    requires 0 < k <= length && i < k && j < k
    requires Bound(length, k, i) <= p < Bound(length, k, i + 1) && Bound(length, k, j) <= p < Bound(length, k, j + 1)
    ensures i == j
  {
    if i < j { BoundsRise(length, k, i + 1, j); }
    if j < i { BoundsRise(length, k, j + 1, i); }
  }

  function UpTo(k: nat): (r: set<nat>)
    ensures forall i: nat {:trigger i in r} :: i in r <==> i < k
  {
    if k == 0 then {} else UpTo(k - 1) + {k - 1}
  }

  // ---------------------------------------------------------------- phases 1 and 2

  /** The total of s[lo..hi), by std::accumulate from its first element. */
  method Accumulate<T>(src: array<T>, op: (T, T) -> T, lo: nat, hi: nat) returns (total: T)
    requires lo < hi <= src.Length
    ensures total == Fold(op, src[lo..hi])
  {
    total := src[lo];
    var j := lo + 1;
    assert src[lo..j] == [src[lo]];
    while j < hi
      invariant lo < j <= hi && total == Fold(op, src[lo..j])
    {
      assert src[lo..j + 1][..j - lo] == src[lo..j];
      total := op(total, src[j]);
      j := j + 1;
    }
  }

  function Block<T>(s: seq<T>, k: nat, i: nat): seq<T>
    requires 0 < k <= |s| && i < k
  {
    BlocksPartition(|s|, k, i);
    s[Bound(|s|, k, i)..Bound(|s|, k, i + 1)]
  }

  ghost predicate TotalOk<T>(op: (T, T) -> T, s: seq<T>, k: nat, totals: map<nat, T>, i: nat)
    requires 0 < k <= |s| && i < k
  {
    i in totals && Block(s, k, i) != [] && totals[i] == Fold(op, Block(s, k, i))
  }

  /** Phase 1: the totals of the blocks, the tasks finishing in any order. */
  method Totals<T>(src: array<T>, op: (T, T) -> T, k: nat) returns (totals: map<nat, T>)
    requires 0 < k <= src.Length
    ensures forall i: nat {:trigger TotalOk(op, src[..], k, totals, i)} :: i < k ==> TotalOk(op, src[..], k, totals, i)
  {
    totals := map[];
    ghost var s := src[..];
    var pending: set<nat> := UpTo(k);
    while pending != {}
      invariant forall i {:trigger i in pending} :: i in pending ==> i < k
      invariant forall i: nat {:trigger TotalOk(op, s, k, totals, i)} :: i < k && i !in pending ==> TotalOk(op, s, k, totals, i)
      decreases |pending|
    {
      var i :| i in pending;
      ghost var before := totals;
      BlocksPartition(src.Length, k, i);
      var total := Accumulate(src, op, Bound(src.Length, k, i), Bound(src.Length, k, i + 1));
      assert Block(s, k, i) == src[Bound(src.Length, k, i)..Bound(src.Length, k, i + 1)];
      hide Block, Bound, Fold;
      totals := totals[i := total];
      pending := pending - {i};
      forall j: nat | j < k && j !in pending ensures TotalOk(op, s, k, totals, j) {
        if j != i { assert TotalOk(op, s, k, before, j); }
      }
    }
  }

  /** Everything before block `i`. */
  function Ahead<T>(s: seq<T>, k: nat, i: nat): (r: seq<T>)
    requires 0 < k <= |s| && 0 < i < k
    ensures r != []
  {
    BlocksPartition(|s|, k, 0);
    BoundsRise(|s|, k, 1, i);
    s[..Bound(|s|, k, i)]
  }

  lemma AheadGrows<T>(s: seq<T>, k: nat, i: nat)
    requires 0 < k <= |s| && 0 < i < k
    ensures Ahead(s, k, i) == if i == 1 then Block(s, k, 0) else Ahead(s, k, i - 1) + Block(s, k, i - 1)
  {
    BlocksPartition(|s|, k, 0);
    BlocksPartition(|s|, k, i - 1);
  }

  ghost predicate CarryOk<T>(op: (T, T) -> T, s: seq<T>, k: nat, carries: map<nat, T>, i: nat)
    requires 0 < k <= |s| && 0 < i < k
  {
    i in carries && carries[i] == Fold(op, Ahead(s, k, i))
  }

  /** Phase 2: carry `i` is the fold of everything before block `i`, for i > 0. */
  method Carries<T(!new)>(ghost s: seq<T>, op: (T, T) -> T, k: nat, totals: map<nat, T>) returns (carries: map<nat, T>)
    requires Associative(op) && 0 < k <= |s|
    requires forall i: nat {:trigger TotalOk(op, s, k, totals, i)} :: i < k ==> TotalOk(op, s, k, totals, i)
    ensures forall i: nat {:trigger CarryOk(op, s, k, carries, i)} :: 0 < i < k ==> CarryOk(op, s, k, carries, i)
    ensures 0 !in carries
  {
    carries := map[];
    var i := 1;
    while i < k
      invariant 1 <= i <= k && 0 !in carries
      invariant forall j: nat {:trigger CarryOk(op, s, k, carries, j)} :: 0 < j < i ==> CarryOk(op, s, k, carries, j)
    {
      ghost var before := carries;
      assert TotalOk(op, s, k, totals, i - 1);
      AheadGrows(s, k, i);
      hide Block, Ahead, Bound, Fold;
      if i == 1 {
        carries := carries[i := totals[0]];
      } else {
        assert CarryOk(op, s, k, carries, i - 1);
        FoldJoins(op, Ahead(s, k, i - 1), Block(s, k, i - 1));
        carries := carries[i := op(carries[i - 1], totals[i - 1])];
      }
      forall j: nat | 0 < j < i ensures CarryOk(op, s, k, carries, j) {
        assert CarryOk(op, s, k, before, j);
      }
      i := i + 1;
    }
  }

  // ---------------------------------------------------------------- phase 3

  /** How far each block's task has come. */
  ghost predicate Marks(n: nat, k: nat, at: seq<nat>)
    requires 0 < k <= n
  {
    |at| == k && forall i: nat {:trigger MarkOk(n, k, at, i)} :: i < k ==> MarkOk(n, k, at, i)
  }

  /** Element `p` has been written by its block's task. */
  predicate Written(n: nat, k: nat, at: seq<nat>, i: nat, p: nat)
    requires 0 < k <= n
  {
    i < k && i < |at| && Bound(n, k, i) <= p < at[i]
  }

  predicate Waits(n: nat, k: nat, at: seq<nat>, i: nat, p: nat)
    requires 0 < k <= n
  {
    i < k && i < |at| && at[i] <= p < Bound(n, k, i + 1)
  }

  /** What is written is right, and what is still to be read is as it was. */
  ghost predicate Scanned<T>(src: seq<T>, dst: seq<T>, s: seq<T>, r: seq<T>, k: nat, at: seq<nat>)
    requires 0 < k <= |s| == |r| == |src| == |dst|
  {
    && (forall i: nat, p: nat {:trigger Written(|s|, k, at, i, p)} :: Written(|s|, k, at, i, p) && p < |s| ==> dst[p] == r[p])
    && (forall i: nat, p: nat {:trigger Waits(|s|, k, at, i, p)} :: Waits(|s|, k, at, i, p) && p < |s| ==> src[p] == s[p])
  }

  function Left(n: nat, at: seq<nat>): nat {
    if at == [] then 0 else (if at[0] < n then n - at[0] else 0) + Left(n, at[1..])
  }

  lemma {:induction false} LeftDrops(n: nat, at: seq<nat>, i: nat)
    requires i < |at| && at[i] < n
    ensures Left(n, at[i := at[i] + 1]) < Left(n, at)
  {
    var next := at[i := at[i] + 1];
    if i == 0 {
      assert next[1..] == at[1..];
    } else {
      LeftDrops(n, at[1..], i - 1);
      assert next[1..] == at[1..][i - 1 := at[i] + 1] && next[0] == at[0];
    }
  }

  ghost predicate MarkOk(n: nat, k: nat, at: seq<nat>, i: nat)
    requires 0 < k <= n && i < k == |at|
  {
    Bound(n, k, i) <= at[i] <= Bound(n, k, i + 1) <= n
  }

  lemma MarksStep(n: nat, k: nat, at: seq<nat>, i: nat)
    requires 0 < k <= n && Marks(n, k, at) && i < k && at[i] < Bound(n, k, i + 1)
    ensures Marks(n, k, at[i := at[i] + 1])
  {
    var next: seq<nat> := at[i := at[i] + 1];
    forall j: nat | j < k ensures MarkOk(n, k, next, j) {
      assert MarkOk(n, k, at, j);
    }
  }

  /** The task of block `i` writes place `p`, which no other block's task reads or writes. */
  lemma OnlyBlockWrites(n: nat, k: nat, at: seq<nat>, i: nat, j: nat, p: nat)
    requires 0 < k <= n && Marks(n, k, at) && i < k && p == at[i] < Bound(n, k, i + 1)
    ensures Written(n, k, at, j, p) ==> j != i
    ensures Waits(n, k, at, j, p) ==> j == i
  {
    assert MarkOk(n, k, at, i);
    if Waits(n, k, at, j, p) {
      assert MarkOk(n, k, at, j);
      BlocksApart(n, k, i, j, p);
    }
  }

  /** Block `i` writes the right value at its place: no other block sees it. */
  lemma ScanStep<T>(src: seq<T>, dst: seq<T>, src': seq<T>, dst': seq<T>, s: seq<T>, r: seq<T>, k: nat, at: seq<nat>, i: nat)
    requires 0 < k <= |s| == |r| == |src| == |dst| == |src'| == |dst'| && Marks(|s|, k, at) && Scanned(src, dst, s, r, k, at)
    requires i < k && at[i] < Bound(|s|, k, i + 1) <= |s|
    requires dst' == dst[at[i] := r[at[i]]] && (src' == src || src' == src[at[i] := r[at[i]]])
    ensures Marks(|s|, k, at[i := at[i] + 1]) && Scanned(src', dst', s, r, k, at[i := at[i] + 1])
  {
    var n, next, q := |s|, at[i := at[i] + 1], at[i];
    MarksStep(n, k, at, i);
    hide Bound, Marks;
    forall j: nat, p: nat | Written(n, k, next, j, p) && p < n ensures dst'[p] == r[p] {
      if p != q { assert Written(n, k, at, j, p); }
    }
    forall j: nat, p: nat | Waits(n, k, next, j, p) && p < n ensures src'[p] == s[p] {
      assert Waits(n, k, at, j, p);
      if p == q { OnlyBlockWrites(n, k, at, i, j, p); }
    }
  }

  lemma {:induction false} BlockOf(n: nat, k: nat, j: nat, p: nat) returns (i: nat)
    requires 0 < k <= n && 0 < j <= k && p < Bound(n, k, j)
    ensures i < j && Bound(n, k, i) <= p < Bound(n, k, i + 1)
  {
    BlocksPartition(n, k, 0);
    if j == 1 || Bound(n, k, j - 1) <= p {
      i := j - 1;
    } else {
      i := BlockOf(n, k, j - 1, p);
    }
  }

  /** When every block is done the whole output is right. */
  lemma ScanDone<T>(src: seq<T>, dst: seq<T>, s: seq<T>, r: seq<T>, k: nat, at: seq<nat>)
    requires 0 < k <= |s| == |r| == |src| == |dst| && Marks(|s|, k, at) && Scanned(src, dst, s, r, k, at)
    requires forall i: nat {:trigger at[i]} :: i < k ==> at[i] == Bound(|s|, k, i + 1)
    ensures dst == r
  {
    forall p: nat | p < |s| ensures dst[p] == r[p] {
      BlocksPartition(|s|, k, k - 1);
      var i := BlockOf(|s|, k, k, p);
      assert Written(|s|, k, at, i, p);
    }
  }

  function Starts(n: nat, k: nat, i: nat): (at: seq<nat>)
    requires 0 < k && i <= k
    ensures |at| == i && forall j: nat {:trigger at[j]} :: j < i ==> at[j] == Bound(n, k, j)
  {
    if i == 0 then [] else Starts(n, k, i - 1) + [Bound(n, k, i - 1)]
  }

  lemma StartsMark<T>(s: seq<T>, dst: seq<T>, r: seq<T>, k: nat)
    requires 0 < k <= |s| == |dst| == |r|
    ensures var at := Starts(|s|, k, k); Marks(|s|, k, at) && Scanned(s, dst, s, r, k, at)
  {
    var at := Starts(|s|, k, k);
    forall i: nat | i < k ensures MarkOk(|s|, k, at, i) {
      BlocksPartition(|s|, k, i);
    }
  }

  // ---------------------------------------------------------------- the scans

  /** What std::inclusive_scan writes. */
  function Inclusive<T>(op: (T, T) -> T, s: seq<T>): (r: seq<T>)
    ensures |r| == |s| && forall j {:trigger r[j]} :: 0 <= j < |s| ==> r[j] == Fold(op, s[..j + 1])
  {
    seq(|s|, j requires 0 <= j < |s| => Fold(op, s[..j + 1]))
  }

  /** What std::exclusive_scan writes: each place gets the fold of `init` and everything before the place. */
  function Exclusive<T>(op: (T, T) -> T, init: T, s: seq<T>): (r: seq<T>)
    ensures |r| == |s| && forall j {:trigger r[j]} :: 0 <= j < |s| ==> r[j] == Fold(op, [init] + s[..j])
  {
    seq(|s|, j requires 0 <= j < |s| => Fold(op, [init] + s[..j]))
  }

  /** What block `i` carries when it has come to position `p`: nothing at the very beginning. */
  ghost predicate Carried<T>(op: (T, T) -> T, s: seq<T>, accs: map<nat, T>, i: nat, p: nat) {
    p <= |s| && (i in accs <==> p > 0) && (p > 0 ==> accs[i] == Fold(op, s[..p]))
  }

  lemma CarriesStart<T>(op: (T, T) -> T, s: seq<T>, k: nat, carries: map<nat, T>, i: nat)
    requires 0 < k <= |s| && i < k && 0 !in carries && (0 < i ==> CarryOk(op, s, k, carries, i))
    ensures Carried(op, s, carries, i, Bound(|s|, k, i))
  {
    BlocksPartition(|s|, k, 0);
    if i > 0 {
      BoundsRise(|s|, k, 1, i);
      assert Ahead(s, k, i) == s[..Bound(|s|, k, i)];
    }
  }

  /** Where block `i` is, and what its task holds. */
  ghost predicate BlockOk<T>(op: (T, T) -> T, s: seq<T>, k: nat, at: seq<nat>, accs: map<nat, T>, pending: set<nat>, i: nat)
    requires 0 < k <= |s| && i < k == |at|
  {
    Carried(op, s, accs, i, at[i]) && MarkOk(|s|, k, at, i) && (i in pending <==> at[i] < Bound(|s|, k, i + 1))
  }

  ghost predicate BlocksOk<T>(op: (T, T) -> T, s: seq<T>, k: nat, at: seq<nat>, accs: map<nat, T>, pending: set<nat>)
    requires 0 < k <= |s|
  {
    && |at| == k && (forall i {:trigger i in pending} :: i in pending ==> i < k)
    && forall i: nat {:trigger BlockOk(op, s, k, at, accs, pending, i)} :: i < k ==> BlockOk(op, s, k, at, accs, pending, i)
  }

  function Running(n: nat, k: nat, at: seq<nat>, pending: set<nat>, i: nat): set<nat>
    requires 0 < k && i < |at|
  {
    if at[i] == Bound(n, k, i + 1) then pending - {i} else pending
  }

  lemma BlocksStart<T>(op: (T, T) -> T, s: seq<T>, k: nat, carries: map<nat, T>)
    requires 0 < k <= |s| && 0 !in carries
    requires forall i: nat {:trigger CarryOk(op, s, k, carries, i)} :: 0 < i < k ==> CarryOk(op, s, k, carries, i)
    ensures BlocksOk(op, s, k, Starts(|s|, k, k), carries, UpTo(k))
  {
    var at := Starts(|s|, k, k);
    forall i: nat | i < k ensures BlockOk(op, s, k, at, carries, UpTo(k), i) {
      if i > 0 { assert CarryOk(op, s, k, carries, i); }
      CarriesStart(op, s, k, carries, i);
      BlocksPartition(|s|, k, i);
    }
  }

  lemma BlocksStep<T>(op: (T, T) -> T, s: seq<T>, k: nat, at: seq<nat>, accs: map<nat, T>, pending: set<nat>, i: nat, acc: T)
    requires 0 < k <= |s| && BlocksOk(op, s, k, at, accs, pending) && i in pending && i < k && at[i] < |s|
    requires acc == if i in accs then op(accs[i], s[at[i]]) else s[at[i]]
    ensures acc == Inclusive(op, s)[at[i]]
    ensures var next := at[i := at[i] + 1]; BlocksOk(op, s, k, next, accs[i := acc], Running(|s|, k, next, pending, i))
  {
    assert BlockOk(op, s, k, at, accs, pending, i);
    FoldSnoc(op, s, at[i]);
    var next: seq<nat>, accs', rest := at[i := at[i] + 1], accs[i := acc], Running(|s|, k, at[i := at[i] + 1], pending, i);
    hide Bound, Fold;
    forall j: nat | j < k ensures BlockOk(op, s, k, next, accs', rest, j) {
      assert BlockOk(op, s, k, at, accs, pending, j);
    }
  }

  lemma BlocksEnd<T>(op: (T, T) -> T, s: seq<T>, k: nat, at: seq<nat>, accs: map<nat, T>)
    requires 0 < k <= |s| && BlocksOk(op, s, k, at, accs, {})
    ensures forall i: nat {:trigger at[i]} :: i < k ==> at[i] == Bound(|s|, k, i + 1)
  {
    forall i: nat {:trigger at[i]} | i < k ensures at[i] == Bound(|s|, k, i + 1) {
      assert BlockOk(op, s, k, at, accs, {}, i);
    }
  }

  /** Phase 3 of the inclusive scan: the tasks of the blocks in any interleaving, an element at a time. */
  method ScanBlocks<T(!new)>(src: array<T>, dst: array<T>, op: (T, T) -> T, k: nat, carries: map<nat, T>)
    requires 0 < k <= src.Length == dst.Length && 0 !in carries
    requires forall i: nat {:trigger CarryOk(op, src[..], k, carries, i)} :: 0 < i < k ==> CarryOk(op, src[..], k, carries, i)
    modifies dst
    ensures dst[..] == Inclusive(op, old(src[..]))
  {
    var n := src.Length;
    ghost var s := src[..];
    ghost var r := Inclusive(op, s);
    var at: seq<nat>, accs := Starts(n, k, k), carries;
    var pending: set<nat> := UpTo(k);
    StartsMark(s, dst[..], r, k);
    BlocksStart(op, s, k, carries);
    while pending != {}
      invariant Marks(n, k, at) && Scanned(src[..], dst[..], s, r, k, at)
      invariant BlocksOk(op, s, k, at, accs, pending)
      decreases Left(n, at)
    {
      var i :| i in pending;
      ghost var src0, dst0 := src[..], dst[..];
      var p := at[i];
      assert BlockOk(op, s, k, at, accs, pending, i) && Waits(n, k, at, i, p) && src[p] == s[p];
      LeftDrops(n, at, i);
      var acc := if i in accs then op(accs[i], src[p]) else src[p];
      BlocksStep(op, s, k, at, accs, pending, i, acc);
      hide Scanned, Inclusive, BlocksOk;
      dst[p] := acc;
      ScanStep(src0, dst0, src[..], dst[..], s, r, k, at, i);
      accs := accs[i := acc];
      at := at[i := p + 1];
      pending := Running(n, k, at, pending, i);
    }
    BlocksEnd(op, s, k, at, accs);
    ScanDone(src[..], dst[..], s, r, k, at);
  }

  /** std::inclusive_scan. */
  method ScanInOrder<T>(src: array<T>, dst: array<T>, op: (T, T) -> T)
    requires 0 < src.Length == dst.Length
    modifies dst
    ensures dst[..] == Inclusive(op, old(src[..]))
  {
    ghost var s := src[..];
    var acc := src[0];
    dst[0] := acc;
    var j := 1;
    assert s[..1] == [s[0]];
    while j < src.Length
      invariant 1 <= j <= src.Length && acc == Fold(op, s[..j])
      invariant forall p :: 0 <= p < j ==> dst[p] == Inclusive(op, s)[p]
      invariant forall p :: j <= p < src.Length ==> src[p] == s[p]
    {
      FoldSnoc(op, s, j);
      acc := op(acc, src[j]);
      dst[j] := acc;
      j := j + 1;
    }
  }

  /** parallel_inclusive_scan: for every associative operation, every length, any number of hardware threads
      and every interleaving, the output, which may be the input, is that of the sequential scan. */
  method ParallelInclusiveScan<T(!new)>(src: array<T>, dst: array<T>, op: (T, T) -> T, hardware: nat)
    requires Associative(op) && src.Length == dst.Length
    modifies dst
    ensures dst[..] == Inclusive(op, old(src[..]))
  {
    if src.Length == 0 {
      return;
    }
    var k := Threads(src.Length, hardware);
    if src.Length < 2 * MIN_PER_THREAD || k < 2 {
      ScanInOrder(src, dst, op);
    } else {
      ThreadsFit(src.Length, hardware);
      var totals := Totals(src, op, k);
      var carries := Carries(src[..], op, k, totals);
      ScanBlocks(src, dst, op, k, carries);
    }
  }
}
