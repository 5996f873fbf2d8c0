/** The exclusive scan (include/parallel_scan.hpp:132-227): only the first block starts from `init`. */
module ParallelExclusiveScan {
  import opened ParallelScan

  /** Everything before block `i`, which for block 0 is nothing. */
  function Prefix<T>(s: seq<T>, k: nat, i: nat): seq<T>
    requires 0 < k <= |s| && i < k
  {
    BoundsRise(|s|, k, i, k);
    s[..Bound(|s|, k, i)]
  }

  lemma PrefixGrows<T>(s: seq<T>, k: nat, i: nat)
    requires 0 < k <= |s| && 0 < i < k
    ensures Prefix(s, k, 0) == [] && Prefix(s, k, i) == Prefix(s, k, i - 1) + Block(s, k, i - 1)
  {
    BlocksPartition(|s|, k, i - 1);
    BlocksPartition(|s|, k, 0);
  }

  ghost predicate SeedOk<T>(op: (T, T) -> T, init: T, s: seq<T>, k: nat, seeds: map<nat, T>, i: nat)
    requires 0 < k <= |s| && i < k
  {
    i in seeds && seeds[i] == FoldFrom(op, init, Prefix(s, k, i))
  }

  /** Phase 2: seed `i` is the fold from `init` of everything before block `i`. */
  method Seeds<T(!new)>(ghost s: seq<T>, op: (T, T) -> T, init: T, k: nat, totals: map<nat, T>) returns (seeds: map<nat, T>)
    requires Associative(op) && 0 < k <= |s|
    requires forall i: nat {:trigger TotalOk(op, s, k, totals, i)} :: i < k ==> TotalOk(op, s, k, totals, i)
    ensures forall i: nat {:trigger SeedOk(op, init, s, k, seeds, i)} :: i < k ==> SeedOk(op, init, s, k, seeds, i)
  {
    seeds := map[0 := init];
    BlocksPartition(|s|, k, 0);
    var i := 1;
    while i < k
      invariant 1 <= i <= k
      invariant forall j: nat {:trigger SeedOk(op, init, s, k, seeds, j)} :: j < i ==> SeedOk(op, init, s, k, seeds, j)
    {
      ghost var before := seeds;
      assert TotalOk(op, s, k, totals, i - 1) && SeedOk(op, init, s, k, seeds, i - 1);
      PrefixGrows(s, k, i);
      FoldFromJoins(op, init, Prefix(s, k, i - 1), Block(s, k, i - 1));
      hide Block, Prefix, Bound, Fold, FoldFrom;
      seeds := seeds[i := op(seeds[i - 1], totals[i - 1])];
      forall j: nat | j < i ensures SeedOk(op, init, s, k, seeds, j) {
        assert SeedOk(op, init, s, k, before, j);
      }
      i := i + 1;
    }
  }

  /** Where block `i` is, and what its task holds: the fold of everything before its place. */
  ghost predicate BlockOk<T>(op: (T, T) -> T, init: T, s: seq<T>, k: nat, at: seq<nat>, accs: map<nat, T>, pending: set<nat>, i: nat)
    requires 0 < k <= |s| && i < k == |at|
  {
    && MarkOk(|s|, k, at, i) && i in accs && accs[i] == FoldFrom(op, init, s[..at[i]])
    && (i in pending <==> at[i] < Bound(|s|, k, i + 1))
  }

  ghost predicate BlocksOk<T>(op: (T, T) -> T, init: T, s: seq<T>, k: nat, at: seq<nat>, accs: map<nat, T>, pending: set<nat>)
    requires 0 < k <= |s|
  {
    && |at| == k && (forall i {:trigger i in pending} :: i in pending ==> i < k)
    && forall i: nat {:trigger BlockOk(op, init, s, k, at, accs, pending, i)} :: i < k ==> BlockOk(op, init, s, k, at, accs, pending, i)
  }

  lemma BlocksStart<T>(op: (T, T) -> T, init: T, s: seq<T>, k: nat, seeds: map<nat, T>)
    requires 0 < k <= |s|
    requires forall i: nat {:trigger SeedOk(op, init, s, k, seeds, i)} :: i < k ==> SeedOk(op, init, s, k, seeds, i)
    ensures BlocksOk(op, init, s, k, Starts(|s|, k, k), seeds, UpTo(k))
  {
    var at := Starts(|s|, k, k);
    forall i: nat | i < k ensures BlockOk(op, init, s, k, at, seeds, UpTo(k), i) {
      assert SeedOk(op, init, s, k, seeds, i);
      BlocksPartition(|s|, k, i);
    }
  }

  lemma BlocksStep<T>(op: (T, T) -> T, init: T, s: seq<T>, k: nat, at: seq<nat>, accs: map<nat, T>, pending: set<nat>, i: nat)
    requires 0 < k <= |s| && BlocksOk(op, init, s, k, at, accs, pending) && i in pending && i < k && at[i] < |s| && i in accs
    ensures accs[i] == Exclusive(op, init, s)[at[i]]
    ensures var next := at[i := at[i] + 1];
      BlocksOk(op, init, s, k, next, accs[i := op(accs[i], s[at[i]])], Running(|s|, k, next, pending, i))
  {
    assert BlockOk(op, init, s, k, at, accs, pending, i);
    FoldFromSnoc(op, init, s, at[i]);
    var next: seq<nat>, accs', rest := at[i := at[i] + 1], accs[i := op(accs[i], s[at[i]])], Running(|s|, k, at[i := at[i] + 1], pending, i);
    hide Bound, FoldFrom;
    forall j: nat | j < k ensures BlockOk(op, init, s, k, next, accs', rest, j) {
      assert BlockOk(op, init, s, k, at, accs, pending, j);
    }
  }

  lemma BlocksEnd<T>(op: (T, T) -> T, init: T, s: seq<T>, k: nat, at: seq<nat>, accs: map<nat, T>)
    requires 0 < k <= |s| && BlocksOk(op, init, s, k, at, accs, {})
    ensures forall i: nat {:trigger at[i]} :: i < k ==> at[i] == Bound(|s|, k, i + 1)
  {
    forall i: nat {:trigger at[i]} | i < k ensures at[i] == Bound(|s|, k, i + 1) {
      assert BlockOk(op, init, s, k, at, accs, {}, i);
    }
  }

  /** Phase 3: the tasks of the blocks in any interleaving; a task reads an element before it writes that place. */
  method ScanBlocks<T(!new)>(src: array<T>, dst: array<T>, op: (T, T) -> T, init: T, k: nat, seeds: map<nat, T>)
    requires 0 < k <= src.Length == dst.Length
    requires forall i: nat {:trigger SeedOk(op, init, src[..], k, seeds, i)} :: i < k ==> SeedOk(op, init, src[..], k, seeds, i)
    modifies dst
    ensures dst[..] == Exclusive(op, init, old(src[..]))
  {
    var n := src.Length;
    ghost var s := src[..];
    ghost var r := Exclusive(op, init, s);
    var at: seq<nat>, accs := Starts(n, k, k), seeds;
    var pending: set<nat> := UpTo(k);
    StartsMark(s, dst[..], r, k);
    BlocksStart(op, init, s, k, seeds);
    while pending != {}
      invariant Marks(n, k, at) && Scanned(src[..], dst[..], s, r, k, at)
      invariant BlocksOk(op, init, s, k, at, accs, pending)
      decreases Left(n, at)
    {
      var i :| i in pending;
      ghost var src0, dst0 := src[..], dst[..];
      var p := at[i];
      assert BlockOk(op, init, s, k, at, accs, pending, i) && Waits(n, k, at, i, p) && src[p] == s[p];
      LeftDrops(n, at, i);
      BlocksStep(op, init, s, k, at, accs, pending, i);
      hide Scanned, Exclusive, BlocksOk;
      var acc := op(accs[i], src[p]);
      dst[p] := accs[i];
      ScanStep(src0, dst0, src[..], dst[..], s, r, k, at, i);
      accs := accs[i := acc];
      at := at[i := p + 1];
      pending := Running(n, k, at, pending, i);
    }
    BlocksEnd(op, init, s, k, at, accs);
    ScanDone(src[..], dst[..], s, r, k, at);
  }

  /** std::exclusive_scan. */
  method ScanInOrder<T>(src: array<T>, dst: array<T>, op: (T, T) -> T, init: T)
    requires src.Length == dst.Length
    modifies dst
    ensures dst[..] == Exclusive(op, init, old(src[..]))
  {
    ghost var s := src[..];
    var acc, j := init, 0;
    while j < src.Length
      invariant 0 <= j <= src.Length && acc == FoldFrom(op, init, s[..j])
      invariant forall p :: 0 <= p < j ==> dst[p] == Exclusive(op, init, s)[p]
      invariant forall p :: j <= p < src.Length ==> src[p] == s[p]
    {
      FoldFromSnoc(op, init, s, j);
      var next := op(acc, src[j]);
      dst[j] := acc;
      acc := next;
      j := j + 1;
    }
  }

  /** parallel_exclusive_scan: for every associative operation, every length, any number of hardware threads
      and every interleaving, the output, which may be the input, is that of the sequential scan. */
  method ParallelExclusiveScan<T(!new)>(src: array<T>, dst: array<T>, op: (T, T) -> T, init: T, hardware: nat)
    requires Associative(op) && src.Length == dst.Length
    modifies dst
    ensures forall j :: 0 <= j < dst.Length ==> dst[j] == Fold(op, [init] + old(src[..])[..j])
    ensures dst.Length > 0 ==> dst[0] == init
  {
    ghost var s := src[..];
    assert Fold(op, [init] + s[..0]) == init by { assert [init] + s[..0] == [init]; }
    if src.Length == 0 {
      return;
    }
    var k := Threads(src.Length, hardware);
    if src.Length < 2 * MIN_PER_THREAD || k < 2 {
      ScanInOrder(src, dst, op, init);
    } else {
      ThreadsFit(src.Length, hardware);
      var totals := Totals(src, op, k);
      var seeds := Seeds(src[..], op, init, k, totals);
      ScanBlocks(src, dst, op, init, k, seeds);
    }
    assert forall j :: 0 <= j < dst.Length ==> dst[j] == dst[..][j] == Exclusive(op, init, s)[j];
  }
}
