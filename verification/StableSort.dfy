/** Sorting of items by key: what a stable sort returns, and that it is the only sorted arrangement which
    keeps the order of items with equal keys. */
module StableSort {
  /** An item is compared by its key only. */
  datatype Item = Item(key: int, tag: int)

  predicate Sorted(s: seq<Item>) {
    forall i, j {:trigger s[i], s[j]} :: 0 <= i < j < |s| ==> s[i].key <= s[j].key
  }

  /** The items with key `k`, in order. */
  function Of(s: seq<Item>, k: int): seq<Item> {
    if s == [] then [] else (if s[0].key == k then [s[0]] else []) + Of(s[1..], k)
  }

  /** Same items, those with equal keys in the same order. */
  ghost predicate SameOrder(a: seq<Item>, b: seq<Item>) {
    forall k {:trigger Of(a, k)} {:trigger Of(b, k)} :: Of(a, k) == Of(b, k)
  }

  function One(x: Item, k: int): seq<Item> { if x.key == k then [x] else [] }

  lemma OfCons(x: Item, s: seq<Item>, k: int)
    ensures Of([x] + s, k) == One(x, k) + Of(s, k)
  {
    assert ([x] + s)[1..] == s;
  }

  lemma OfSplit(s: seq<Item>, k: int)
    requires s != []
    ensures Of(s, k) == One(s[0], k) + Of(s[1..], k)
  {
  }

  lemma {:induction false} OfJoins(a: seq<Item>, b: seq<Item>, k: int)
    ensures Of(a + b, k) == Of(a, k) + Of(b, k)
  {
    if a == [] {
      assert a + b == b;
    } else {
      OfSplit(a, k);
      OfSplit(a + b, k);
      assert (a + b)[1..] == a[1..] + b;
      OfJoins(a[1..], b, k);
      hide Of, One;
    }
  }

  lemma {:induction false} OfNone(s: seq<Item>, k: int)
    requires forall i {:trigger s[i]} :: 0 <= i < |s| ==> s[i].key != k
    ensures Of(s, k) == []
  {
    if s != [] { OfNone(s[1..], k); }
  }

  /** A stable merge: of equal keys the first sequence's come first. */
  function Merge(a: seq<Item>, b: seq<Item>): (m: seq<Item>)
    ensures |m| == |a| + |b|
  {
    if a == [] then b
    else if b == [] then a
    else if b[0].key < a[0].key then [b[0]] + Merge(a, b[1..])
    else [a[0]] + Merge(a[1..], b)
  }

  predicate AtLeast(s: seq<Item>, k: int) { forall i {:trigger s[i]} :: 0 <= i < |s| ==> k <= s[i].key }

  lemma {:induction false} MergeAtLeast(a: seq<Item>, b: seq<Item>, k: int)
    requires AtLeast(a, k) && AtLeast(b, k)
    ensures AtLeast(Merge(a, b), k)
  {
    if a == [] || b == [] {
    } else if b[0].key < a[0].key {
      MergeAtLeast(a, b[1..], k);
    } else {
      MergeAtLeast(a[1..], b, k);
    }
  }

  lemma ConsSorted(x: Item, s: seq<Item>)
    requires Sorted(s) && AtLeast(s, x.key)
    ensures Sorted([x] + s)
  {
  }

  lemma {:induction false} MergeSorted(a: seq<Item>, b: seq<Item>)
    requires Sorted(a) && Sorted(b)
    ensures Sorted(Merge(a, b))
  {
    if a == [] || b == [] {
    } else if b[0].key < a[0].key {
      MergeSorted(a, b[1..]);
      MergeAtLeast(a, b[1..], b[0].key);
      ConsSorted(b[0], Merge(a, b[1..]));
    } else {
      MergeSorted(a[1..], b);
      MergeAtLeast(a[1..], b, a[0].key);
      ConsSorted(a[0], Merge(a[1..], b));
    }
  }

  lemma Regroup(o: seq<Item>, x: seq<Item>, y: seq<Item>)
    ensures o == [] || x == [] ==> o + (x + y) == x + (o + y)
    ensures o + (x + y) == (o + x) + y
  {
    if o == [] {
      assert o + (x + y) == x + (o + y);
    }
    if x == [] {
      assert o + (x + y) == x + (o + y);
    }
  }

  /** A merge is stable. */
  lemma {:induction false} MergeStable(a: seq<Item>, b: seq<Item>, k: int)
    requires Sorted(a) && Sorted(b)
    ensures Of(Merge(a, b), k) == Of(a, k) + Of(b, k)
  {
    if a == [] || b == [] {
    } else if b[0].key < a[0].key {
      var m := Merge(a, b[1..]);
      assert Merge(a, b) == [b[0]] + m;
      MergeStable(a, b[1..], k);
      if b[0].key == k { OfNone(a, k); }
      hide Merge, Sorted, Of;
      OfCons(b[0], m, k);
      OfSplit(b, k);
      Regroup(One(b[0], k), Of(a, k), Of(b[1..], k));
    } else {
      var m := Merge(a[1..], b);
      assert Merge(a, b) == [a[0]] + m;
      MergeStable(a[1..], b, k);
      hide Merge, Sorted, Of;
      OfCons(a[0], m, k);
      OfSplit(a, k);
      Regroup(One(a[0], k), Of(a[1..], k), Of(b, k));
    }
  }

  /** What std::stable_sort leaves. */
  function Stable(s: seq<Item>): (r: seq<Item>)
    ensures |r| == |s|
  {
    if s == [] then [] else Merge([s[0]], Stable(s[1..]))
  }

  lemma {:induction false} StableIsSorted(s: seq<Item>)
    ensures Sorted(Stable(s))
  {
    if s != [] {
      StableIsSorted(s[1..]);
      MergeSorted([s[0]], Stable(s[1..]));
    }
  }

  lemma {:induction false} StableKeepsOrder(s: seq<Item>, k: int)
    ensures Of(Stable(s), k) == Of(s, k)
  {
    if s != [] {
      StableKeepsOrder(s[1..], k);
      StableIsSorted(s[1..]);
      MergeStable([s[0]], Stable(s[1..]), k);
      OfCons(s[0], [], k);
      OfSplit(s, k);
      assert [s[0]] + [] == [s[0]];
      hide Merge, Sorted, One;
    }
  }

  lemma FirstOf(s: seq<Item>)
    requires s != []
    ensures Of(s, s[0].key) != [] && Of(s, s[0].key)[0] == s[0]
  {
  }

  /** Items with key `k` exist only if some item has key `k`. */
  lemma {:induction false} OfSome(s: seq<Item>, k: int) returns (i: nat)
    requires Of(s, k) != []
    ensures i < |s| && s[i].key == k
  {
    if s[0].key == k {
      i := 0;
    } else {
      i := OfSome(s[1..], k);
      i := i + 1;
    }
  }

  /** There is only one sorted arrangement that keeps the order of items with equal keys. */
  lemma {:induction false} StableIsUnique(a: seq<Item>, b: seq<Item>)
    requires Sorted(a) && Sorted(b) && SameOrder(a, b)
    ensures a == b
  {
    if a == [] {
      if b != [] {
        FirstOf(b);
      }
    } else {
      FirstOf(a);
      var i := OfSome(b, a[0].key);
      FirstOf(b);
      var j := OfSome(a, b[0].key);
      assert b[0].key <= a[0].key && a[0].key <= b[0].key;
      assert a[0] == b[0];
      var c, d := a[1..], b[1..];
      forall k ensures Of(c, k) == Of(d, k) {
        assert Of(a, k) == Of(b, k);
        OfSplit(a, k);
        OfSplit(b, k);
        assert Of(c, k) == Of(a, k)[|One(a[0], k)|..];
        assert Of(d, k) == Of(b, k)[|One(b[0], k)|..];
      }
      StableIsUnique(a[1..], b[1..]);
    }
  }

  /** Sorting the halves apart and merging them sorts the whole, stably. */
  lemma MergeOfHalves(a: seq<Item>, b: seq<Item>)
    ensures Merge(Stable(a), Stable(b)) == Stable(a + b)
  {
    StableIsSorted(a);
    StableIsSorted(b);
    StableIsSorted(a + b);
    MergeSorted(Stable(a), Stable(b));
    var m := Merge(Stable(a), Stable(b));
    forall k ensures Of(m, k) == Of(Stable(a + b), k) {
      MergeStable(Stable(a), Stable(b), k);
      StableKeepsOrder(a, k);
      StableKeepsOrder(b, k);
      StableKeepsOrder(a + b, k);
      OfJoins(a, b, k);
    }
    StableIsUnique(m, Stable(a + b));
  }

  lemma ConsAll(x: Item, s: seq<Item>)
    ensures multiset([x] + s) == multiset{x} + multiset(s)
  {
  }

  lemma Swap(x: multiset<Item>, a: multiset<Item>, b: multiset<Item>)
    ensures x + (a + b) == a + (x + b) && x + (a + b) == (x + a) + b
  {
  }

  lemma {:induction false} MergePermutes(a: seq<Item>, b: seq<Item>)
    ensures multiset(Merge(a, b)) == multiset(a) + multiset(b)
  {
    if a == [] || b == [] {
    } else if b[0].key < a[0].key {
      MergePermutes(a, b[1..]);
      assert b == [b[0]] + b[1..] && Merge(a, b) == [b[0]] + Merge(a, b[1..]);
      hide Merge;
      ConsAll(b[0], b[1..]);
      ConsAll(b[0], Merge(a, b[1..]));
      Swap(multiset{b[0]}, multiset(a), multiset(b[1..]));
    } else {
      MergePermutes(a[1..], b);
      assert a == [a[0]] + a[1..] && Merge(a, b) == [a[0]] + Merge(a[1..], b);
      hide Merge;
      ConsAll(a[0], a[1..]);
      ConsAll(a[0], Merge(a[1..], b));
      Swap(multiset{a[0]}, multiset(a[1..]), multiset(b));
    }
  }

  lemma {:induction false} StablePermutes(s: seq<Item>)
    ensures multiset(Stable(s)) == multiset(s)
  {
    if s != [] {
      StablePermutes(s[1..]);
      MergePermutes([s[0]], Stable(s[1..]));
      assert s == [s[0]] + s[1..];
    }
  }
}
