/** The parallel sorts (include/parallel_merge_sort.hpp, include/parallel_quick_sort.hpp). The two halves
    work on disjoint data, so only which of them finishes first is left open; `std::stable_sort` and
    `std::list::sort` leave what `Stable` says. */
module ParallelSort {
  import opened StableSort

  const THRESHOLD: nat := 512

  // ---------------------------------------------------------------- merge sort

  /** Inserting before the first item that is not smaller is a stable merge. */
  lemma {:induction false} MergeOne(x: Item, p: seq<Item>, q: seq<Item>)
    requires (forall i {:trigger p[i]} :: 0 <= i < |p| ==> p[i].key < x.key) && (q == [] || x.key <= q[0].key)
    ensures Merge([x], p + q) == p + [x] + q
  {
    if p == [] {
      assert [] + q == q && [x][1..] == [];
    } else {
      MergeOne(x, p[1..], q);
      assert (p + q)[1..] == p[1..] + q;
      assert p + [x] + q == [p[0]] + (p[1..] + [x] + q);
    }
  }

  /** `was` with `done` written from `lo` on. */
  function Patched(was: seq<Item>, lo: nat, done: seq<Item>): (s: seq<Item>)
    requires lo + |done| <= |was|
    ensures |s| == |was|
    ensures forall k :: lo + |done| <= k < |was| ==> s[k] == was[k]
  {
    was[..lo] + done + was[lo + |done|..]
  }

  lemma PatchNone(was: seq<Item>, lo: nat)
    requires lo <= |was|
    ensures Patched(was, lo, []) == was
  {
  }

  lemma PatchOne(was: seq<Item>, lo: nat, done: seq<Item>, x: Item)
    requires lo + |done| < |was|
    ensures Patched(was, lo, done)[lo + |done| := x] == Patched(was, lo, done + [x])
  {
    var p := lo + |done|;
    assert was[p..] == [was[p]] + was[p + 1..];
  }

  /** Patched from `lo`, only the range is changed. */
  lemma PatchRange(was: seq<Item>, lo: nat, done: seq<Item>)
    requires lo + |done| <= |was|
    ensures var s, hi := Patched(was, lo, done), lo + |done|;
      s[..lo] == was[..lo] && s[lo..hi] == done && s[hi..] == was[hi..]
  {
  }

  lemma PatchMore(was: seq<Item>, lo: nat, done: seq<Item>, hi: nat)
    requires lo + |done| <= hi <= |was|
    ensures Patched(was, lo, done) == Patched(was, lo, done + was[lo + |done|..hi])
  {
    var p := lo + |done|;
    assert was[p..] == was[p..hi] + was[hi..];
  }

  /** Moves item `i` into the sorted items behind it. */
  method InsertItem(a: array<Item>, i: nat, hi: nat)
    requires i < hi <= a.Length
    modifies a
    ensures a[..] == Patched(old(a[..]), i, Merge([old(a[i])], old(a[..])[i + 1..hi]))
  {
    ghost var was, moved := a[..], [];
    var x, j := a[i], i;
    PatchNone(was, i);
    hide Patched, Merge;
    while j + 1 < hi && a[j + 1].key < x.key
      invariant i <= j < hi && |moved| == j - i && moved == was[i + 1..j + 1] && a[..] == Patched(was, i, moved)
      invariant forall p {:trigger moved[p]} :: 0 <= p < |moved| ==> moved[p].key < x.key
      decreases hi - j
    {
      var y := a[j + 1];
      assert y == a[..][j + 1] == was[j + 1];
      PatchOne(was, i, moved, y);
      a[j] := y;
      j := j + 1;
      moved := moved + [y];
    }
    assert j + 1 < hi ==> a[j + 1] == a[..][j + 1] == was[j + 1];
    a[j] := x;
    InsertDone(was, i, moved, hi);
  }

  lemma InsertDone(was: seq<Item>, i: nat, moved: seq<Item>, hi: nat)
    requires i + |moved| < hi <= |was| && moved == was[i + 1..i + 1 + |moved|]
    requires (forall p {:trigger moved[p]} :: 0 <= p < |moved| ==> moved[p].key < was[i].key)
    requires i + |moved| + 1 < hi ==> was[i].key <= was[i + |moved| + 1].key
    ensures Patched(was, i, moved)[i + |moved| := was[i]] == Patched(was, i, Merge([was[i]], was[i + 1..hi]))
  {
    var q := was[i + |moved| + 1..hi];
    MergeOne(was[i], moved, q);
    assert was[i + 1..hi] == moved + q;
    hide Patched, Merge;
    PatchOne(was, i, moved, was[i]);
    PatchMore(was, i, moved + [was[i]], hi);
  }

  lemma PatchAgain(was: seq<Item>, i: nat, done: seq<Item>, more: seq<Item>)
    requires i + |more| <= |was| && |more| == |done| + 1
    ensures Patched(Patched(was, i + 1, done), i, more) == Patched(was, i, more)
  {
  }

  /** std::stable_sort. */
  method StableSortRange(a: array<Item>, lo: nat, hi: nat)
    requires lo <= hi <= a.Length
    modifies a
    ensures a[lo..hi] == Stable(old(a[lo..hi])) && a[..lo] == old(a[..lo]) && a[hi..] == old(a[hi..])
  {
    ghost var was, done := a[..], [];
    var i := hi;
    PatchNone(was, hi);
    hide Patched, Merge;
    while i > lo
      invariant lo <= i <= hi && |done| == hi - i && done == Stable(was[i..hi]) && a[..] == Patched(was, i, done)
    {
      i := i - 1;
      PatchedAt(was, i, done);
      InsertItem(a, i, hi);
      assert was[i..hi][1..] == was[i + 1..hi] && was[i..hi][0] == was[i];
      PatchAgain(was, i, done, Merge([was[i]], done));
      done := Merge([was[i]], done);
    }
    PatchRange(was, lo, done);
    assert a[lo..hi] == a[..][lo..hi] && a[..lo] == a[..][..lo] && a[hi..] == a[..][hi..];
  }

  lemma PatchedAt(was: seq<Item>, i: nat, done: seq<Item>)
    requires i + 1 + |done| <= |was|
    ensures var s := Patched(was, i + 1, done); s[i] == was[i] && s[i + 1..i + 1 + |done|] == done
  {
  }

  /** The merge `m` is `done` and then the merge of what is left of the runs. */
  predicate MergesOn(m: seq<Item>, done: seq<Item>, l: seq<Item>, r: seq<Item>, i: nat, j: nat) {
    i <= |l| && j <= |r| && m == done + Merge(l[i..], r[j..]) && |done| == i + j
  }

  predicate TakesLeft(l: seq<Item>, r: seq<Item>, i: nat, j: nat) {
    i < |l| && (j >= |r| || l[i].key <= r[j].key)
  }

  lemma MergeStep(m: seq<Item>, done: seq<Item>, l: seq<Item>, r: seq<Item>, i: nat, j: nat)
    requires MergesOn(m, done, l, r, i, j) && (i < |l| || j < |r|)
    ensures if TakesLeft(l, r, i, j) then MergesOn(m, done + [l[i]], l, r, i + 1, j)
            else j < |r| && MergesOn(m, done + [r[j]], l, r, i, j + 1)
  {
    MergeHead(l[i..], r[j..]);
    hide Merge;
    if TakesLeft(l, r, i, j) {
      assert l[i..][1..] == l[i + 1..];
      Regroup(done, [l[i]], Merge(l[i + 1..], r[j..]));
    } else {
      assert r[j..][1..] == r[j + 1..];
      Regroup(done, [r[j]], Merge(l[i..], r[j + 1..]));
    }
  }

  lemma MergeStart(l: seq<Item>, r: seq<Item>)
    ensures MergesOn(Merge(l, r), [], l, r, 0, 0)
  {
    assert l[0..] == l && r[0..] == r;
  }

  lemma MergeEnd(m: seq<Item>, done: seq<Item>, l: seq<Item>, r: seq<Item>)
    requires MergesOn(m, done, l, r, |l|, |r|)
    ensures m == done
  {
    MergeNothing(l[|l|..], r[|r|..]);
  }

  /** Writes the next item of the merge of `l` and `r`, of which `i` and `j` items are written. */
  method MergeNext(a: array<Item>, lo: nat, l: seq<Item>, r: seq<Item>, i: nat, j: nat, ghost was: seq<Item>, ghost done: seq<Item>, ghost m: seq<Item>)
    returns (i': nat, j': nat, ghost done': seq<Item>)
    requires lo + |l| + |r| <= a.Length == |was| && i <= |l| && j <= |r| && (i < |l| || j < |r|) && |done| == i + j
    requires MergesOn(m, done, l, r, i, j) && a[..] == Patched(was, lo, done)
    modifies a
    ensures i' <= |l| && j' <= |r| && |done'| == i' + j' == i + j + 1
    ensures MergesOn(m, done', l, r, i', j') && a[..] == Patched(was, lo, done')
  {
    hide Merge, MergesOn, Patched;
    MergeStep(m, done, l, r, i, j);
    var left := TakesLeft(l, r, i, j);
    var x := if left then l[i] else r[j];
    PatchOne(was, lo, done, x);
    a[lo + i + j] := x;
    done' := done + [x];
    i', j' := if left then i + 1 else i, if left then j else j + 1;
  }

  /** std::inplace_merge, with a buffer for the two runs. */
  method InplaceMerge(a: array<Item>, lo: nat, mid: nat, hi: nat)
    requires lo <= mid <= hi <= a.Length
    modifies a
    ensures a[lo..hi] == Merge(old(a[lo..mid]), old(a[mid..hi])) && a[..lo] == old(a[..lo]) && a[hi..] == old(a[hi..])
  {
    var l, r := a[lo..mid], a[mid..hi];
    ghost var m := Merge(l, r);
    var i, j := 0, 0;
    ghost var was, done := a[..], [];
    MergeStart(l, r);
    PatchNone(was, lo);
    hide Merge, MergesOn, Patched, TakesLeft;
    while i < |l| || j < |r|
      invariant 0 <= i <= |l| && 0 <= j <= |r| && |done| == i + j
      invariant MergesOn(m, done, l, r, i, j) && a[..] == Patched(was, lo, done)
      decreases |l| + |r| - i - j
    {
      i, j, done := MergeNext(a, lo, l, r, i, j, was, done, m);
    }
    MergeEnd(m, done, l, r);
    PatchRange(was, lo, done);
    assert a[lo..hi] == a[..][lo..hi] && a[..lo] == a[..][..lo] && a[hi..] == a[..][hi..];
  }

  lemma MergeNothing(l: seq<Item>, r: seq<Item>)
    requires l == [] && r == []
    ensures Merge(l, r) == []
  {
  }

  lemma MergeHead(l: seq<Item>, r: seq<Item>)
    ensures l != [] && (r == [] || l[0].key <= r[0].key) ==> Merge(l, r) == [l[0]] + Merge(l[1..], r)
    ensures r != [] && (l == [] || r[0].key < l[0].key) ==> Merge(l, r) == [r[0]] + Merge(l, r[1..])
  {
    if l != [] && r == [] {
      assert Merge(l[1..], r) == l[1..];
    }
    if r != [] && l == [] {
      assert Merge(l, r[1..]) == r[1..];
    }
  }

  /** parallel_merge_sort: for every depth, every range and whichever half finishes first, the range holds its
      stable sort and nothing else changes. */
  method ParallelMergeSort(a: array<Item>, lo: nat, hi: nat, depth: nat)
    requires lo <= hi <= a.Length
    modifies a
    ensures a[lo..hi] == Stable(old(a[lo..hi])) && a[..lo] == old(a[..lo]) && a[hi..] == old(a[hi..])
    decreases depth
  {
    if hi - lo < THRESHOLD || depth == 0 {
      StableSortRange(a, lo, hi);
      return;
    }
    var mid := lo + (hi - lo) / 2;
    ghost var was := a[..];
    if * {
      ParallelMergeSort(a, lo, mid, depth - 1);
      assert a[mid..hi] == a[mid..][..hi - mid] == was[mid..hi];
      assert a[hi..] == a[mid..][hi - mid..] == was[hi..];
      ghost var half := a[..];
      ParallelMergeSort(a, mid, hi, depth - 1);
      assert a[lo..mid] == a[..mid][lo..] == half[lo..mid];
      assert a[..lo] == a[..mid][..lo] == was[..lo];
    } else {
      ParallelMergeSort(a, mid, hi, depth - 1);
      assert a[lo..mid] == a[..mid][lo..] == was[lo..mid];
      assert a[..lo] == a[..mid][..lo] == was[..lo];
      ghost var half := a[..];
      ParallelMergeSort(a, lo, mid, depth - 1);
      assert a[mid..hi] == a[mid..][..hi - mid] == half[mid..hi];
      assert a[hi..] == a[mid..][hi - mid..] == was[hi..];
    }
    MergeOfHalves(was[lo..mid], was[mid..hi]);
    assert was[lo..hi] == was[lo..mid] + was[mid..hi];
    InplaceMerge(a, lo, mid, hi);
  }

  // ---------------------------------------------------------------- quick sort

  /** std::partition: the smaller items first, in any order within the parts. */
  method Partition(s: seq<Item>, pivot: Item) returns (lower: seq<Item>, higher: seq<Item>)
    ensures multiset(lower) + multiset(higher) == multiset(s)
    ensures |lower| + |higher| == |s|
    ensures (forall x {:trigger x in lower} :: x in lower ==> x.key < pivot.key) && (forall x {:trigger x in higher} :: x in higher ==> pivot.key <= x.key)
  {
    lower, higher := [], [];
    var i := 0;
    while i < |s|
      invariant 0 <= i <= |s| && multiset(lower) + multiset(higher) == multiset(s[..i]) && |lower| + |higher| == i
      invariant (forall x {:trigger x in lower} :: x in lower ==> x.key < pivot.key) && (forall x {:trigger x in higher} :: x in higher ==> pivot.key <= x.key)
    {
      assert s[..i + 1] == s[..i] + [s[i]];
      if s[i].key < pivot.key {
        if * { lower := lower + [s[i]]; } else { lower := [s[i]] + lower; }
      } else {
        if * { higher := higher + [s[i]]; } else { higher := [s[i]] + higher; }
      }
      i := i + 1;
    }
    assert s[..i] == s;
  }

  lemma SameMembers(s: seq<Item>, t: seq<Item>)
    requires multiset(s) == multiset(t)
    ensures forall x :: x in s <==> x in t
  {
    forall x ensures x in s <==> x in t {
      assert x in s <==> x in multiset(s);
      assert x in t <==> x in multiset(t);
    }
  }

  /** The sorted parts around the pivot are sorted. */
  lemma AroundPivot(lower: seq<Item>, pivot: Item, higher: seq<Item>)
    requires Sorted(lower) && Sorted(higher)
    requires (forall x {:trigger x in lower} :: x in lower ==> x.key < pivot.key) && (forall x {:trigger x in higher} :: x in higher ==> pivot.key <= x.key)
    ensures Sorted(lower + [pivot] + higher)
  {
    var s := lower + [pivot] + higher;
    forall i, j | 0 <= i < j < |s| ensures s[i].key <= s[j].key {
      assert i < |lower| ==> lower[i] in lower;
      assert j > |lower| ==> s[j] == higher[j - |lower| - 1] && s[j] in higher;
      assert i > |lower| ==> s[i] == higher[i - |lower| - 1];
    }
  }

  lemma PivotPermutes(chunk: seq<Item>, low: seq<Item>, high: seq<Item>)
    requires chunk != [] && multiset(low) + multiset(high) == multiset(chunk[1..])
    ensures multiset(low + [chunk[0]] + high) == multiset(chunk)
  {
    assert chunk == [chunk[0]] + chunk[1..];
  }

  /** sorter::do_sort: for every depth and input and whichever half finishes first, a sorted permutation. */
  method DoSort(chunk: seq<Item>, depth: nat) returns (result: seq<Item>)
    ensures Sorted(result) && multiset(result) == multiset(chunk)
    decreases depth
  {
    if chunk == [] {
      return [];
    }
    if depth == 0 {
      StableIsSorted(chunk);
      StablePermutes(chunk);
      return Stable(chunk);
    }
    hide Sorted, Stable;
    var pivot := chunk[0];
    var lower, higher := Partition(chunk[1..], pivot);
    var low, high: seq<Item>;
    if lower == [] || higher == [] {
      StableIsSorted(lower);
      StablePermutes(lower);
      StableIsSorted(higher);
      StablePermutes(higher);
      low, high := Stable(lower), Stable(higher);
    } else if * {
      low := DoSort(lower, depth - 1);
      high := DoSort(higher, depth - 1);
    } else {
      high := DoSort(higher, depth - 1);
      low := DoSort(lower, depth - 1);
    }
    SameMembers(low, lower);
    SameMembers(high, higher);
    AroundPivot(low, pivot, high);
    result := low + [pivot] + high;
    PivotPermutes(chunk, low, high);
  }
}
