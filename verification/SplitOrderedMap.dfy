/** The split-ordered hash map (include/lockfree_hash_map.hpp) run by one thread at a time: a single
    list of bucket sentinels and data nodes, lazily made sentinels, and doubling that moves no node.

    With one thread no compare-and-swap fails but, if the caller says so, the one that unlinks an
    erased node; that leaves a marked node in the list, as a racing operation would, for later
    searches to unlink. Keys are integers, the hash is any function, counters are unbounded. */
module SplitOrderedMap {
  import opened SplitOrder

  datatype Option<+T> = None | Some(value: T)

  class Node<V> {
    const order: nat        // the split key
    const key: Option<int>  // None marks a bucket sentinel
    var value: Option<V>
    var next: Node?<V>
    var marked: bool        // the low bit of `next`

    constructor (order: nat, key: Option<int>, value: Option<V>, next: Node?<V>)
      ensures this.order == order && this.key == key && this.value == value && this.next == next && !marked
    {
      this.order, this.key, this.value, this.next, this.marked := order, key, value, next, false;
    }
  }

  /** What a node holds, its link aside. */
  datatype Cell<+V> = Cell(order: nat, key: Option<int>, value: Option<V>, marked: bool)

  // ---------------------------------------------------------------- lists of cells

  /** The order of the list: by split key, data nodes with equal split keys by key. */
  predicate Before(o: nat, k: Option<int>, p: nat, l: Option<int>) {
    o < p || (o == p && k.Some? && l.Some? && k.value < l.value)
  }

  predicate InOrder<V>(c: seq<Cell<V>>, i: int, j: int)
    requires 0 <= i < |c| && 0 <= j < |c|
  {
    Before(c[i].order, c[i].key, c[j].order, c[j].key)
  }

  ghost predicate Sorted<V>(c: seq<Cell<V>>) {
    forall i, j {:trigger InOrder(c, i, j)} :: 0 <= i < j < |c| ==> InOrder(c, i, j)
  }

  /** Data cells have the odd key of their hash; sentinels an even key, and they are never erased. */
  predicate CellOk<V>(x: Cell<V>, hasher: int -> nat) {
    if x.key.Some? then x.order == DataKey(hasher(x.key.value)) && x.value.Some? else x.order % 2 == 0 && !x.marked
  }

  /** Cell `i` holds key `k`. */
  predicate Live<V>(c: seq<Cell<V>>, i: int, k: int) {
    0 <= i < |c| && c[i].key == Some(k) && !c[i].marked
  }

  ghost predicate Present<V>(c: seq<Cell<V>>, k: int) {
    exists i :: Live(c, i, k)
  }

  /** The unmarked data cells are the map. */
  ghost predicate Tells<V>(c: seq<Cell<V>>, contents: map<int, V>) {
    && (forall i, k {:trigger Live(c, i, k)} :: Live(c, i, k) ==> k in contents && c[i].value == Some(contents[k]))
    && (forall k {:trigger Present(c, k)} :: k in contents ==> Present(c, k))
  }

  ghost predicate CellsOk<V>(c: seq<Cell<V>>, hasher: int -> nat, contents: map<int, V>) {
    && Sorted(c) && Tells(c, contents)
    && (forall i {:trigger CellOk(c[i], hasher)} :: 0 <= i < |c| ==> CellOk(c[i], hasher))
  }

  lemma Distinct<V>(c: seq<Cell<V>>, i: nat, j: nat)
    requires Sorted(c) && i < |c| && j < |c|
    ensures c[i].order == c[j].order && c[i].key == c[j].key <==> i == j
  {
    if i != j { assert InOrder(c, if i < j then i else j, if i < j then j else i); }
  }

  function Without<T>(s: seq<T>, i: nat): seq<T>
    requires i < |s|
  {
    s[..i] + s[i + 1..]
  }

  function With<T>(s: seq<T>, i: nat, x: T): seq<T>
    requires i <= |s|
  {
    s[..i] + [x] + s[i..]
  }

  lemma WithoutAt<T>(s: seq<T>, i: nat, j: nat)
    requires i < |s| && j < |s| - 1
    ensures |Without(s, i)| == |s| - 1 && Without(s, i)[j] == s[if j < i then j else j + 1]
  {
  }

  lemma WithAt<T>(s: seq<T>, i: nat, x: T, j: nat)
    requires i <= |s| && j <= |s|
    ensures |With(s, i, x)| == |s| + 1 && With(s, i, x)[j] == if j == i then x else s[if j < i then j else j - 1]
  {
  }

  /** Taking out a marked cell leaves the map as it is. */
  lemma WithoutOk<V>(c: seq<Cell<V>>, i: nat, hasher: int -> nat, contents: map<int, V>)
    requires CellsOk(c, hasher, contents) && i < |c| && c[i].marked
    ensures CellsOk(Without(c, i), hasher, contents)
  {
    var d := Without(c, i);
    forall a, b | 0 <= a < b < |d| ensures InOrder(d, a, b) {
      WithoutAt(c, i, a);
      WithoutAt(c, i, b);
      assert InOrder(c, if a < i then a else a + 1, if b < i then b else b + 1);
    }
    forall j | 0 <= j < |d| ensures CellOk(d[j], hasher) {
      WithoutAt(c, i, j);
      assert CellOk(c[if j < i then j else j + 1], hasher);
    }
    forall j, k | Live(d, j, k) ensures k in contents && d[j].value == Some(contents[k]) {
      WithoutAt(c, i, j);
      assert Live(c, if j < i then j else j + 1, k);
    }
    forall k | k in contents ensures Present(d, k) {
      assert Present(c, k);
      var j :| Live(c, j, k);
      WithoutAt(c, i, if j < i then j else j - 1);
      assert Live(d, if j < i then j else j - 1, k);
    }
  }

  function Added<V>(contents: map<int, V>, x: Cell<V>): map<int, V> {
    if x.key.Some? && x.value.Some? then contents[x.key.value := x.value.value] else contents
  }

  lemma WithSorted<V>(c: seq<Cell<V>>, i: nat, x: Cell<V>)
    requires Sorted(c) && i < |c| && Before(c[i].order, c[i].key, x.order, x.key)
    requires i + 1 < |c| ==> Before(x.order, x.key, c[i + 1].order, c[i + 1].key)
    ensures Sorted(With(c, i + 1, x))
  {
    var d := With(c, i + 1, x);
    forall a, b | 0 <= a < b < |d| ensures InOrder(d, a, b) {
      WithAt(c, i + 1, x, a);
      WithAt(c, i + 1, x, b);
      if a == i + 1 {
        if b > i + 2 { assert InOrder(c, i + 1, b - 1); }
      } else if b == i + 1 {
        if a < i { assert InOrder(c, a, i); }
      } else {
        assert InOrder(c, if a <= i then a else a - 1, if b <= i then b else b - 1);
      }
    }
  }

  /** Putting in an unmarked cell with a new key adds that key; a sentinel adds nothing. */
  lemma WithOk<V>(c: seq<Cell<V>>, i: nat, x: Cell<V>, hasher: int -> nat, contents: map<int, V>)
    requires CellsOk(c, hasher, contents) && i < |c| && Before(c[i].order, c[i].key, x.order, x.key)
    requires i + 1 < |c| ==> Before(x.order, x.key, c[i + 1].order, c[i + 1].key)
    requires CellOk(x, hasher) && !x.marked && (x.key.Some? ==> x.key.value !in contents)
    ensures CellsOk(With(c, i + 1, x), hasher, Added(contents, x))
  {
    var d, m := With(c, i + 1, x), Added(contents, x);
    WithSorted(c, i, x);
    forall j | 0 <= j < |d| ensures CellOk(d[j], hasher) {
      WithAt(c, i + 1, x, j);
      if j != i + 1 { assert CellOk(c[if j <= i then j else j - 1], hasher); }
    }
    forall j, k | Live(d, j, k) ensures k in m && d[j].value == Some(m[k]) {
      WithAt(c, i + 1, x, j);
      if j != i + 1 { assert Live(c, if j <= i then j else j - 1, k); }
    }
    forall k | k in m ensures Present(d, k) {
      WithAt(c, i + 1, x, i + 1);
      if x.key == Some(k) {
        assert Live(d, i + 1, k);
      } else {
        assert Present(c, k);
        var j :| Live(c, j, k);
        WithAt(c, i + 1, x, if j <= i then j else j + 1);
        assert Live(d, if j <= i then j else j + 1, k);
      }
    }
  }

  /** Replacing the value of a live cell updates its key. */
  lemma ValueOk<V>(c: seq<Cell<V>>, i: nat, k: int, v: V, hasher: int -> nat, contents: map<int, V>)
    requires CellsOk(c, hasher, contents) && Live(c, i, k)
    ensures CellsOk(c[i := c[i].(value := Some(v))], hasher, contents[k := v])
  {
    var d, m := c[i := c[i].(value := Some(v))], contents[k := v];
    forall a, b | 0 <= a < b < |d| ensures InOrder(d, a, b) {
      assert InOrder(c, a, b);
    }
    forall j | 0 <= j < |d| ensures CellOk(d[j], hasher) {
      assert CellOk(c[j], hasher);
    }
    forall j, l | Live(d, j, l) ensures l in m && d[j].value == Some(m[l]) {
      assert Live(c, j, l) && CellOk(c[j], hasher) && CellOk(c[i], hasher);
      Distinct(c, i, j);
    }
    forall l | l in m ensures Present(d, l) {
      if l == k {
        assert Live(d, i, l);
      } else {
        assert Present(c, l);
        var j :| Live(c, j, l);
        assert Live(d, j, l);
      }
    }
  }

  /** Marking a live cell removes its key. */
  lemma MarkOk<V>(c: seq<Cell<V>>, i: nat, k: int, hasher: int -> nat, contents: map<int, V>)
    requires CellsOk(c, hasher, contents) && Live(c, i, k)
    ensures CellsOk(c[i := c[i].(marked := true)], hasher, contents - {k})
  {
    var d, m := c[i := c[i].(marked := true)], contents - {k};
    forall a, b | 0 <= a < b < |d| ensures InOrder(d, a, b) {
      assert InOrder(c, a, b);
    }
    forall j | 0 <= j < |d| ensures CellOk(d[j], hasher) {
      assert CellOk(c[j], hasher);
    }
    forall j, l | Live(d, j, l) ensures l in m && d[j].value == Some(m[l]) {
      assert Live(c, j, l) && CellOk(c[j], hasher) && CellOk(c[i], hasher);
      Distinct(c, i, j);
    }
    forall l | l in m ensures Present(d, l) {
      assert Present(c, l);
      var j :| Live(c, j, l);
      assert Live(d, j, l);
    }
  }

  // ---------------------------------------------------------------- what a search tells

  /** Cell `i` is the last before the position (split, key). */
  predicate Stops<V>(c: seq<Cell<V>>, i: nat, split: nat, key: int) {
    && i < |c| && Before(c[i].order, c[i].key, split, Some(key))
    && (i + 1 < |c| ==> !Before(c[i + 1].order, c[i + 1].key, split, Some(key)))
  }

  lemma StopsSplits<V>(c: seq<Cell<V>>, i: nat, j: nat, split: nat, key: int)
    requires Sorted(c) && Stops(c, i, split, key) && j < |c|
    ensures j <= i <==> Before(c[j].order, c[j].key, split, Some(key))
  {
    if j < i { assert InOrder(c, j, i); }
    if i + 1 < j { assert InOrder(c, i + 1, j); }
  }

  /** A search ends at the same place wherever it starts. */
  lemma StopsOnce<V>(c: seq<Cell<V>>, i: nat, j: nat, split: nat, key: int)
    requires Sorted(c) && Stops(c, i, split, key) && Stops(c, j, split, key)
    ensures i == j
  {
    StopsSplits(c, i, j, split, key);
    StopsSplits(c, j, i, split, key);
  }

  /** The cell behind position (split, key) holds that key. */
  predicate Hits<V>(c: seq<Cell<V>>, i: nat, split: nat, key: int) {
    i + 1 < |c| && c[i + 1].order == split && c[i + 1].key == Some(key)
  }

  /** The search that stops at an unmarked cell finds the key exactly if the map has it, wherever it
      started. */
  lemma SearchTells<V>(c: seq<Cell<V>>, i: nat, key: int, hasher: int -> nat, contents: map<int, V>)
    requires CellsOk(c, hasher, contents) && Stops(c, i, DataKey(hasher(key)), key)
    requires i + 1 < |c| ==> !c[i + 1].marked
    ensures Hits(c, i, DataKey(hasher(key)), key) <==> key in contents
    ensures key in contents ==> Live(c, i + 1, key) && c[i + 1].value == Some(contents[key])
    ensures key !in contents && i + 1 < |c| ==> Before(DataKey(hasher(key)), Some(key), c[i + 1].order, c[i + 1].key)
  {
    var split := DataKey(hasher(key));
    if i + 1 < |c| { assert CellOk(c[i + 1], hasher); }
    if Hits(c, i, split, key) {
      assert Live(c, i + 1, key);
    }
    if key in contents {
      assert Present(c, key);
      var j :| Live(c, j, key);
      assert CellOk(c[j], hasher);
      StopsSplits(c, i, j, split, key);
      assert i + 1 < j ==> InOrder(c, i + 1, j);
    }
  }

  /** The search for an even split key stops in front of the sentinel with that key, if there is one. */
  lemma SentinelTells<V>(c: seq<Cell<V>>, i: nat, split: nat, key: int, hasher: int -> nat, contents: map<int, V>)
    requires CellsOk(c, hasher, contents) && Stops(c, i, split, key) && split % 2 == 0
    ensures i + 1 < |c| && c[i + 1].order == split ==> c[i + 1].key == None
    ensures !(i + 1 < |c| && c[i + 1].order == split) ==>
      forall j {:trigger c[j]} :: 0 <= j < |c| ==> c[j].order != split && (j <= i <==> c[j].order < split)
  {
    if i + 1 < |c| { assert CellOk(c[i + 1], hasher); }
    forall j | 0 <= j < |c| && !(i + 1 < |c| && c[i + 1].order == split)
      ensures c[j].order != split && (j <= i <==> c[j].order < split)
    {
      assert CellOk(c[j], hasher);
      StopsSplits(c, i, j, split, key);
      if i + 1 < j { assert InOrder(c, i + 1, j); }
    }
  }

  // ---------------------------------------------------------------- the list in memory

  function CellOf<V>(n: Node<V>): Cell<V>
    reads n
  {
    Cell(n.order, n.key, n.value, n.marked)
  }

  function Cells<V>(s: seq<Node<V>>): (c: seq<Cell<V>>)
    reads s
    ensures |c| == |s| && forall i {:trigger c[i]} :: 0 <= i < |s| ==> c[i] == CellOf(s[i])
  {
    if s == [] then [] else [CellOf(s[0])] + Cells(s[1..])
  }

  function Links<V>(s: seq<Node<V>>): (l: seq<Node?<V>>)
    reads s
    ensures |l| == |s| && forall i {:trigger l[i]} :: 0 <= i < |s| ==> l[i] == s[i].next
  {
    if s == [] then [] else [s[0].next] + Links(s[1..])
  }

  function After<V>(s: seq<Node<V>>, i: nat): Node?<V> {
    if i + 1 < |s| then s[i + 1] else null
  }

  predicate LinkAt<V>(s: seq<Node<V>>, l: seq<Node?<V>>, i: nat)
    requires i < |s| == |l|
  {
    l[i] == After(s, i)
  }

  /** The links `l` of the nodes `s` lead through them in this order. */
  ghost predicate Chained<V>(s: seq<Node<V>>, l: seq<Node?<V>>) {
    |l| == |s| && forall i: nat {:trigger LinkAt(s, l, i)} :: i < |s| ==> LinkAt(s, l, i)
  }

  lemma ChainWithout<V>(s: seq<Node<V>>, l: seq<Node?<V>>, i: nat)
    requires Chained(s, l) && i + 1 < |s|
    ensures Chained(Without(s, i + 1), Without(l[i := l[i + 1]], i + 1))
  {
    var t, m := Without(s, i + 1), Without(l[i := l[i + 1]], i + 1);
    assert LinkAt(s, l, i + 1);
    forall j: nat | j < |t| ensures LinkAt(t, m, j) {
      assert LinkAt(s, l, if j <= i then j else j + 1);
      WithoutAt(l[i := l[i + 1]], i + 1, j);
      if j + 1 < |t| { WithoutAt(s, i + 1, j + 1); }
    }
  }

  lemma ChainWith<V>(s: seq<Node<V>>, l: seq<Node?<V>>, i: nat, n: Node<V>, q: Node?<V>)
    requires Chained(s, l) && i < |s| && q == After(s, i)
    ensures Chained(With(s, i + 1, n), With(l[i := n], i + 1, q))
  {
    var t, m := With(s, i + 1, n), With(l[i := n], i + 1, q);
    forall j: nat | j < |t| ensures LinkAt(t, m, j) {
      WithAt(l[i := n], i + 1, q, j);
      if j + 1 < |t| { WithAt(s, i + 1, n, j + 1); }
      if j != i + 1 { assert LinkAt(s, l, if j <= i then j else j - 1); }
    }
  }

  lemma CellsWithout<V>(s: seq<Node<V>>, i: nat)
    requires i < |s|
    ensures Cells(Without(s, i)) == Without(Cells(s), i)
  {
    hide Cells;
    var c, d := Cells(Without(s, i)), Without(Cells(s), i);
    assert |c| == |d| == |s| - 1;
    hide Without;
    forall j | 0 <= j < |d| ensures c[j] == d[j] {
      WithoutAt(s, i, j);
      WithoutAt(Cells(s), i, j);
    }
  }

  lemma LinksWithout<V>(s: seq<Node<V>>, i: nat)
    requires i < |s|
    ensures Links(Without(s, i)) == Without(Links(s), i)
  {
    hide Links;
    var c, d := Links(Without(s, i)), Without(Links(s), i);
    assert |c| == |d| == |s| - 1;
    hide Without;
    forall j | 0 <= j < |d| ensures c[j] == d[j] {
      WithoutAt(s, i, j);
      WithoutAt(Links(s), i, j);
    }
  }

  lemma CellsWith<V>(s: seq<Node<V>>, i: nat, n: Node<V>)
    requires i <= |s|
    ensures Cells(With(s, i, n)) == With(Cells(s), i, CellOf(n))
  {
    hide Cells;
    var c, d := Cells(With(s, i, n)), With(Cells(s), i, CellOf(n));
    assert |c| == |d| == |s| + 1;
    hide With;
    forall j | 0 <= j < |d| ensures c[j] == d[j] {
      WithAt(s, i, n, j);
      WithAt(Cells(s), i, CellOf(n), j);
    }
  }

  lemma LinksWith<V>(s: seq<Node<V>>, i: nat, n: Node<V>)
    requires i <= |s|
    ensures Links(With(s, i, n)) == With(Links(s), i, n.next)
  {
    hide Links;
    var c, d := Links(With(s, i, n)), With(Links(s), i, n.next);
    assert |c| == |d| == |s| + 1;
    hide With;
    forall j | 0 <= j < |d| ensures c[j] == d[j] {
      WithAt(s, i, n, j);
      WithAt(Links(s), i, n.next, j);
    }
  }

  lemma NodesDistinct<V>(s: seq<Node<V>>, i: nat, j: nat)
    requires Sorted(Cells(s)) && i < |s| && j < |s|
    ensures s[i] == s[j] <==> i == j
  {
    Distinct(Cells(s), i, j);
  }

  /** Node `i` is in the list once. */
  ghost predicate Once<V>(s: seq<Node<V>>, i: nat)
    requires i < |s|
  {
    forall j {:trigger s[j]} :: 0 <= j < |s| && j != i ==> s[j] != s[i]
  }

  lemma SortedOnce<V>(s: seq<Node<V>>, i: nat)
    requires Sorted(Cells(s)) && i < |s|
    ensures Once(s, i)
  {
    hide Sorted, Cells;
    forall j | 0 <= j < |s| && j != i ensures s[j] != s[i] {
      NodesDistinct(s, i, j);
    }
  }

  /** The nodes as seen after a write to what node `i` holds. */
  lemma CellWritten<V>(s: seq<Node<V>>, i: nat, cells: seq<Cell<V>>, links: seq<Node?<V>>)
    requires i < |s| == |cells| == |links|
    requires forall j {:trigger cells[j]} :: 0 <= j < |s| ==> cells[j] == CellOf(s[j])
    requires forall j {:trigger links[j]} :: 0 <= j < |s| ==> links[j] == s[j].next
    ensures Cells(s) == cells && Links(s) == links
  {
    hide Cells, Links;
  }

  /** `ns` is the set of the nodes of `s`. */
  ghost predicate Members<V>(s: seq<Node<V>>, ns: set<Node<V>>) {
    && (forall n {:trigger n in ns} :: n in ns ==> n in s)
    && (forall i {:trigger s[i]} :: 0 <= i < |s| ==> s[i] in ns)
  }

  lemma WithoutMembers<V>(s: seq<Node<V>>, ns: set<Node<V>>, i: nat)
    requires 0 < i < |s| && Once(s, i) && Members(s, ns)
    ensures var t := Without(s, i); t[0] == s[0] && Members(t, ns - {s[i]})
  {
    var t := Without(s, i);
    WithoutAt(s, i, 0);
    forall n | n in ns - {s[i]} ensures n in t {
      var j :| 0 <= j < |s| && s[j] == n;
      WithoutAt(s, i, if j < i then j else j - 1);
    }
    forall j | 0 <= j < |t| ensures t[j] in ns - {s[i]} {
      WithoutAt(s, i, j);
    }
  }

  /** The nodes as seen after the write of `next` in node `i`. */
  lemma LinkWritten<V>(s: seq<Node<V>>, i: nat, cells: seq<Cell<V>>, links: seq<Node?<V>>, next: Node?<V>)
    requires i < |s| == |cells| == |links| && s[i].next == next
    requires forall j {:trigger cells[j]} :: 0 <= j < |s| ==> cells[j] == CellOf(s[j])
    requires forall j {:trigger links[j]} :: 0 <= j < |s| && j != i ==> links[j] == s[j].next
    ensures Cells(s) == cells && Links(s) == links[i := next]
  {
    hide Cells, Links;
  }

  lemma WithMembers<V>(s: seq<Node<V>>, ns: set<Node<V>>, i: nat, n: Node<V>)
    requires 0 < i <= |s| && Members(s, ns)
    ensures var t := With(s, i, n); t[0] == s[0] && Members(t, ns + {n})
  {
    var t := With(s, i, n);
    WithAt(s, i, n, 0);
    WithAt(s, i, n, i);
    forall m | m in ns + {n} ensures m in t {
      if m != n {
        var j :| 0 <= j < |s| && s[j] == m;
        WithAt(s, i, n, if j < i then j else j + 1);
      }
    }
    forall j | 0 <= j < |t| ensures t[j] in ns + {n} {
      WithAt(s, i, n, j);
    }
  }

  lemma SizeAfter<V>(m: map<int, V>, k: int, v: V)
    ensures |m[k := v]| == if k in m then |m| else |m| + 1
    ensures k in m ==> |m - {k}| == |m| - 1
  {
    assert m[k := v].Keys == m.Keys + {k};
    assert (m - {k}).Keys == m.Keys - {k};
    assert |m.Keys| == |m| && |m[k := v].Keys| == |m[k := v]| && |(m - {k}).Keys| == |m - {k}|;
  }

  /** The least power of two that is at least `n`. */
  method Normalized(n: nat) returns (count: nat, ghost k: nat)
    requires n <= Pow2(WORD)
    ensures count == Pow2(k) && n <= count && k <= WORD
    ensures forall j: nat :: n <= Pow2(j) ==> k <= j
  {
    hide Pow2;
    count, k := 1, 0;
    assert count == Pow2(k) by { PowersDouble(0); }
    while count < n
      invariant count == Pow2(k) && k <= WORD
      invariant k > 0 ==> Pow2(k - 1) < n
      decreases n - count
    {
      PowersDouble(k);
      count, k := count * 2, k + 1;
      BelowTop(n, k - 1);
    }
    forall j: nat | n <= Pow2(j) ensures k <= j {
      if j < k { Pow2Grows(j, k - 1); }
    }
  }

  lemma PowersDouble(k: nat)
    ensures Pow2(0) == 1 && Pow2(k + 1) == 2 * Pow2(k) && Pow2(k) >= 1
  {
  }

  lemma BelowTop(n: nat, k: nat)
    requires Pow2(k) < n <= Pow2(WORD)
    ensures k < WORD
  {
    hide Pow2;
    if WORD <= k { Pow2Grows(WORD, k); }
  }

  class HashMap<V> {
    var bucketCount: nat
    const hasher: int -> nat
    const head: Node<V>
    var size: nat
    ghost var spine: seq<Node<V>>      // the list, from head
    ghost var nodes: set<Node<V>>      // the nodes of the list
    ghost var contents: map<int, V>
    ghost var doublings: nat           // bucketCount is 2^doublings
    ghost var reclaimed: set<Node<V>>  // what was handed to reclaim_later

    ghost predicate ListOk()
      reads this`spine, this`nodes, this`contents, spine
    {
      && |spine| > 0 && spine[0] == head && head.order == 0 && head.key == None
      && Members(spine, nodes)
      && Chained(spine, Links(spine)) && CellsOk(Cells(spine), hasher, contents)
    }

    ghost predicate CountOk()
      reads this
    {
      bucketCount == Pow2(doublings) && doublings <= WORD && size == |contents|
    }

    ghost predicate Valid()
      reads this, spine
    {
      ListOk() && CountOk() && size <= bucketCount
    }

    constructor (initial: nat, hasher: int -> nat)
      requires initial <= Pow2(WORD)
      ensures Valid() && contents == map[] && this.hasher == hasher && fresh(nodes) && initial <= bucketCount
    {
      hide Pow2, Reverse;
      this.hasher := hasher;
      size, contents, reclaimed := 0, map[], {};
      var count, k := Normalized(initial);
      bucketCount, doublings := count, k;
      var first := new Node<V>(BucketKey(0), None, None, null);
      head, spine, nodes := first, [first], {first};
      new;
      ReverseZero(WORD);
      assert forall i: nat :: i < |spine| ==> LinkAt(spine, Links(spine), i);
    }

    // -------------------------------------------------------------- the list

    /** What the list is without the marked node behind node `i`. */
    lemma UnlinkPlan(i: nat, next: Node?<V>)
      requires ListOk() && i + 1 < |spine| && spine[i + 1].marked && next == spine[i + 1].next
      ensures CellsOk(Without(Cells(spine), i + 1), hasher, contents)
      ensures Chained(Without(spine, i + 1), Without(Links(spine)[i := next], i + 1)) && Once(spine, i)
      ensures var t := Without(spine, i + 1); |t| > 0 && t[0] == head && Members(t, nodes - {spine[i + 1]})
    {
      hide Members;
      WithoutOk(Cells(spine), i + 1, hasher, contents);
      ChainWithout(spine, Links(spine), i);
      SortedOnce(spine, i);
      SortedOnce(spine, i + 1);
      WithoutMembers(spine, nodes, i + 1);
    }

    /** Swings `pred`, node `i` of the list, past the marked node behind it. */
    method Unlink(ghost i: nat, pred: Node<V>, curr: Node<V>)
      requires ListOk() && i + 1 < |spine| && spine[i] == pred && spine[i + 1] == curr && curr.marked
      modifies this`spine, this`nodes, pred`next
      ensures ListOk() && spine == Without(old(spine), i + 1) && nodes == old(nodes) - {curr}
    {
      ghost var was, cells, links := spine, Cells(spine), Links(spine);
      var next := curr.next;
      UnlinkPlan(i, next);
      hide CellsOk, Chained, Without, Cells, Links, After, Members;
      pred.next, spine, nodes := next, Without(was, i + 1), nodes - {curr};
      LinkWritten(was, i, cells, links, next);
      hide Once;
      CellsWithout(was, i + 1);
      LinksWithout(was, i + 1);
    }

    /** What the list is with `n` behind node `i`. */
    lemma LinkPlan(i: nat, n: Node<V>)
      requires ListOk() && i < |spine| && n.next == After(spine, i) && !n.marked && CellOk(CellOf(n), hasher)
      requires Before(spine[i].order, spine[i].key, n.order, n.key) && (n.key.Some? ==> n.key.value !in contents)
      requires i + 1 < |spine| ==> Before(n.order, n.key, spine[i + 1].order, spine[i + 1].key)
      ensures CellsOk(With(Cells(spine), i + 1, CellOf(n)), hasher, Added(contents, CellOf(n)))
      ensures Chained(With(spine, i + 1, n), With(Links(spine)[i := n], i + 1, n.next)) && Once(spine, i)
      ensures var t := With(spine, i + 1, n); |t| > 0 && t[0] == head && Members(t, nodes + {n})
    {
      WithOk(Cells(spine), i, CellOf(n), hasher, contents);
      ChainWith(spine, Links(spine), i, n, n.next);
      SortedOnce(spine, i);
      WithMembers(spine, nodes, i + 1, n);
    }

    /** Puts the new node `n` behind `pred`, node `i` of the list. */
    method Link(ghost i: nat, pred: Node<V>, n: Node<V>)
      requires ListOk() && i < |spine| && spine[i] == pred
      requires n !in spine && n.next == After(spine, i) && !n.marked && CellOk(CellOf(n), hasher)
      requires Before(pred.order, pred.key, n.order, n.key) && (n.key.Some? ==> n.key.value !in contents)
      requires i + 1 < |spine| ==> Before(n.order, n.key, spine[i + 1].order, spine[i + 1].key)
      modifies this`spine, this`nodes, this`contents, pred`next
      ensures ListOk() && spine == With(old(spine), i + 1, n) && nodes == old(nodes) + {n} && contents == Added(old(contents), CellOf(n))
    {
      ghost var was, cells, links, cell := spine, Cells(spine), Links(spine), CellOf(n);
      LinkPlan(i, n);
      hide CellsOk, Chained, With, Cells, Links, Added, CellOk, Before, After, Members;
      pred.next, spine, nodes, contents := n, With(was, i + 1, n), nodes + {n}, Added(contents, cell);
      LinkWritten(was, i, cells, links, n);
      hide Once;
      CellsWith(was, i + 1, n);
      LinksWith(was, i + 1, n);
    }

    /** Since the old state the list lost only marked data nodes, which it handed to `reclaim_later`,
        and gained only sentinels up to the key `limit`. */
    twostate predicate Helped(limit: nat)
      reads this
    {
      && (forall n {:trigger n in nodes} :: n in nodes ==> n in old(nodes) || (fresh(n) && n.key == None && n.order <= limit))
      && (forall n {:trigger n in nodes} {:trigger n in old(nodes)} :: n in old(nodes) ==> n in nodes || (n in reclaimed && n.key.Some?))
      && old(reclaimed) <= reclaimed
      && contents == old(contents)
    }

    /** Searches from the sentinel `start`, unlinking marked nodes on the way: `pred` and `curr` end up
        around the position (split, key). */
    method FindFrom(start: Node<V>, ghost a: nat, split: nat, key: int)
      returns (pred: Node<V>, curr: Node?<V>, found: bool, ghost i: nat)
      requires ListOk() && a < |spine| && spine[a] == start && start.key == None && start.order < split
      modifies this`spine, this`nodes, this`reclaimed, nodes`next
      ensures ListOk() && Helped(0)
      ensures i < |spine| && spine[i] == pred && curr == After(spine, i) && !pred.marked
      ensures Stops(Cells(spine), i, split, key) && (curr != null ==> !curr.marked)
      ensures found == Hits(Cells(spine), i, split, key)
    {
      i := a;
      pred := start;
      assert LinkAt(spine, Links(spine), i) && CellOk(Cells(spine)[i], hasher);
      curr := pred.next;
      while true
        invariant ListOk() && Helped(0)
        invariant i < |spine| && spine[i] == pred && curr == After(spine, i) && !pred.marked
        invariant Before(pred.order, pred.key, split, Some(key))
        decreases |spine| - i
      {
        if curr != null && curr.marked {
          UnlinkNext(i, pred, curr);
          curr := pred.next;
        } else if curr == null || !Before(curr.order, curr.key, split, Some(key)) {
          found := curr != null && curr.order == split && curr.key == Some(key);
          return;
        } else {
          pred := curr;
          i := i + 1;
          assert LinkAt(spine, Links(spine), i);
          curr := curr.next;
        }
      }
    }

    /** Unlinks the marked node `curr` and retires it. */
    method UnlinkNext(ghost i: nat, pred: Node<V>, curr: Node<V>)
      requires ListOk() && i + 1 < |spine| && spine[i] == pred && spine[i + 1] == curr && curr.marked
      modifies this`spine, this`nodes, this`reclaimed, pred`next
      ensures ListOk() && Helped(0) && |spine| == |old(spine)| - 1 && spine[i] == pred && pred.next == After(spine, i)
    {
      WithoutAt(spine, i + 1, i);
      assert curr.key.Some? by { assert CellOk(Cells(spine)[i + 1], hasher); }
      Unlink(i, pred, curr);
      assert LinkAt(spine, Links(spine), i);
      if curr.key.Some? {
        reclaimed := reclaimed + {curr};
      }
    }

    // -------------------------------------------------------------- buckets

    /** A bucket has one sentinel. */
    lemma SentinelUnique(i: nat, j: nat)
      requires ListOk() && i < |spine| && j < |spine| && spine[i].key == None && spine[j].key == None
      requires spine[i].order == spine[j].order
      ensures i == j
    {
      Distinct(Cells(spine), i, j);
    }

    /** Positions around the sentinel with the even key `split`, searching from head. */
    method FindSentinel(split: nat) returns (pred: Node<V>, curr: Node?<V>, found: bool, ghost i: nat)
      requires ListOk() && 0 < split && split % 2 == 0
      modifies this`spine, this`nodes, this`reclaimed, nodes`next
      ensures ListOk() && Helped(0)
      ensures i < |spine| && spine[i] == pred && curr == After(spine, i)
      ensures found ==> i + 1 < |spine| && curr != null && curr.order == split && curr.key == None
      ensures !found ==> Lacks(split)
    {
      var hit;
      pred, curr, hit, i := FindFrom(head, 0, split, 0);
      found := curr != null && curr.order == split && curr.key == None;
      SentinelTells(Cells(spine), i, split, 0, hasher, contents);
      forall n | n in nodes && !found ensures n.order != split {
        var j :| 0 <= j < |spine| && spine[j] == n;
        assert Cells(spine)[j].order != split;
      }
    }

    lemma SentinelFits(i: nat, split: nat)
      requires ListOk() && Stops(Cells(spine), i, split, 0) && split % 2 == 0
      requires Lacks(split)
      ensures Before(spine[i].order, spine[i].key, split, None)
      ensures i + 1 < |spine| ==> Before(split, None, spine[i + 1].order, spine[i + 1].key)
    {
      SentinelTells(Cells(spine), i, split, 0, hasher, contents);
      assert i + 1 < |spine| ==> spine[i + 1] in nodes && Cells(spine)[i + 1].order != split;
    }

    /** A new sentinel with key `split` behind `pred`. */
    method AddSentinel(ghost i: nat, pred: Node<V>, curr: Node?<V>, split: nat) returns (s: Node<V>)
      requires ListOk() && i < |spine| && spine[i] == pred && curr == After(spine, i) && split % 2 == 0
      requires Before(pred.order, pred.key, split, None)
      requires i + 1 < |spine| ==> Before(split, None, spine[i + 1].order, spine[i + 1].key)
      modifies this`spine, this`nodes, this`contents, pred`next
      ensures ListOk() && fresh(s) && s.key == None && s.order == split
      ensures i + 1 < |spine| && spine[i + 1] == s && nodes == old(nodes) + {s} && contents == old(contents)
    {
      assert spine[i] in nodes;
      hide CellsOk, Before, Chained, Cells, Links, With;
      s := new Node<V>(split, None, None, curr);
      WithAt(spine, i + 1, s, i + 1);
      Link(i, pred, s);
    }

    /** No node of the list has the split key `split`. */
    ghost predicate Lacks(split: nat)
      reads this`nodes
    {
      forall n {:trigger n in nodes} :: n in nodes ==> n.order != split
    }

    /** Makes the sentinel with key `split`, which the list lacks, searching from the sentinel `start`. */
    method MakeSentinel(start: Node<V>, ghost a: nat, split: nat) returns (s: Node<V>, ghost at: nat)
      requires ListOk() && a < |spine| && spine[a] == start && start.key == None && start.order < split
      requires split % 2 == 0 && 0 < split && Lacks(split)
      modifies this`spine, this`nodes, this`reclaimed, this`contents, nodes`next
      ensures ListOk() && Helped(split)
      ensures at < |spine| && spine[at] == s && s.key == None && s.order == split
    {
      hide ListOk, Stops, Before, Cells, After;
      var pred, curr, hit, i := FindFrom(start, a, split, 0);
      SentinelFits(i, split);
      ListMember(i);
      s := AddSentinel(i, pred, curr, split);
      at := i + 1;
    }

    /** The sentinel of bucket `b`, made now if it is missing, with its missing ancestors. `held` hazard
        slots are in use on entry and at most `peak` at any time. */
    method FindBucket(b: nat, ghost held: nat) returns (s: Node<V>, ghost at: nat, ghost peak: nat)
      requires ListOk() && b < Pow2(WORD)
      modifies this`spine, this`nodes, this`reclaimed, this`contents, nodes`next
      ensures ListOk() && Helped(BucketKey(b))
      ensures at < |spine| && spine[at] == s && s.key == None && s.order == BucketKey(b)
      ensures held <= peak <= held + 2 * PopCount(b)
      decreases b
    {
      hide Pow2, Reverse, PopCount, CellsOk, Chained;
      if b == 0 {
        BucketKeyZero();
        return head, 0, held;
      }
      BucketKeyPositive(b);
      ParentSortsBefore(b);
      ParentPopCount(b);
      var pred, curr, found, i := FindSentinel(BucketKey(b));
      if found {
        return curr, i + 1, held + 2;
      }
      var parent, a, deeper := FindBucket(ParentOf(b), held + 2);
      s, at := MakeSentinel(parent, a, BucketKey(b));
      peak := deeper;
    }

    // -------------------------------------------------------------- writes to a data node

    /** Replaces the value of the live node `curr`. */
    method SetValue(ghost i: nat, curr: Node<V>, ghost key: int, value: V)
      requires ListOk() && Live(Cells(spine), i, key) && spine[i] == curr
      modifies this`contents, curr`value
      ensures ListOk() && contents == old(contents)[key := value]
    {
      ghost var cells, links := Cells(spine), Links(spine);
      ValueOk(cells, i, key, value, hasher, contents);
      SortedOnce(spine, i);
      hide CellsOk, Chained, Members, Cells, Links;
      curr.value, contents := Some(value), contents[key := value];
      CellWritten(spine, i, cells[i := cells[i].(value := Some(value))], links);
    }

    /** Marks the live node `curr`: its key leaves the map. */
    method Mark(ghost i: nat, curr: Node<V>, ghost key: int)
      requires ListOk() && Live(Cells(spine), i, key) && spine[i] == curr
      modifies this`contents, curr`marked
      ensures ListOk() && curr.marked && contents == old(contents) - {key}
    {
      ghost var cells, links := Cells(spine), Links(spine);
      MarkOk(cells, i, key, hasher, contents);
      SortedOnce(spine, i);
      hide CellsOk, Chained, Members, Cells, Links;
      curr.marked, contents := true, contents - {key};
      CellWritten(spine, i, cells[i := cells[i].(marked := true)], links);
    }

    // -------------------------------------------------------------- operations

    /** The bucket of a hash exists, and its sentinel sorts before the hash's data nodes. */
    lemma BucketFits(h: nat)
      requires CountOk()
      ensures var b := BucketOf(h, bucketCount); b < Pow2(WORD) && BucketKey(b) < DataKey(h) && PopCount(b) <= WORD
    {
      hide Pow2, Reverse, PopCount, BucketOf, BucketKey, DataKey;
      Pow2Grows(doublings, WORD);
      MemberAfterSentinel(h, doublings);
      PopCountBound(BucketOf(h, bucketCount), WORD);
    }

    /** Where `key` is or would be, searching from its bucket's sentinel. */
    method FindData(key: int, ghost held: nat)
      returns (pred: Node<V>, curr: Node?<V>, found: bool, ghost i: nat, ghost peak: nat)
      requires Valid()
      modifies this`spine, this`nodes, this`reclaimed, this`contents, nodes`next
      ensures Valid() && contents == old(contents) && forall n {:trigger n in nodes} :: n in nodes ==> n in old(nodes) || fresh(n)
      ensures i < |spine| && spine[i] == pred && curr == After(spine, i)
      ensures Stops(Cells(spine), i, DataKey(hasher(key)), key) && (curr != null ==> !curr.marked)
      ensures found == (key in contents)
      ensures found ==> i + 1 < |spine| && spine[i + 1] == curr && Live(Cells(spine), i + 1, key) && curr.value == Some(contents[key])
      ensures peak <= held + 2 * WORD
    {
      hide Pow2, Reverse, PopCount, Chained, BucketKey, DataKey, BucketOf;
      var h := hasher(key);
      BucketFits(h);
      var b := BucketOf(h, bucketCount);
      var sentinel, a, p := FindBucket(b, held);
      peak := p;
      assert forall j {:trigger spine[j]} :: 0 <= j < |spine| ==> spine[j] in nodes;
      pred, curr, found, i := FindFrom(sentinel, a, DataKey(h), key);
      SearchTells(Cells(spine), i, key, hasher, contents);
    }

    /** A snapshot of the value for `key`, if it has one. At most 66 hazard slots are used at a time. */
    method Get(key: int) returns (r: Option<V>, ghost peak: nat)
      requires Valid()
      modifies this`spine, this`nodes, this`reclaimed, this`contents, nodes`next
      ensures Valid() && contents == old(contents) && forall n {:trigger n in nodes} :: n in nodes ==> n in old(nodes) || fresh(n)
      ensures r == if key in contents then Some(contents[key]) else None
      ensures peak <= 66
    {
      var pred, curr, found, i, p := FindData(key, 2);
      peak := p;
      if found {
        return curr.value, peak;
      }
      r := None;
    }

    method Contains(key: int) returns (r: bool, ghost peak: nat)
      requires Valid()
      modifies this`spine, this`nodes, this`reclaimed, this`contents, nodes`next
      ensures Valid() && contents == old(contents) && forall n {:trigger n in nodes} :: n in nodes ==> n in old(nodes) || fresh(n)
      ensures r == (key in contents)
      ensures peak <= 66
    {
      var pred, curr, found, i, p := FindData(key, 2);
      r, peak := found, p;
    }

    /** Removes `key`. `wins` says whether the compare-and-swap that unlinks the node succeeds; if not, the
        marked node stays for a later search to unlink. */
    method Erase(key: int, wins: bool) returns (r: bool, ghost peak: nat)
      requires Valid()
      modifies this`spine, this`nodes, this`reclaimed, this`contents, this`size, nodes`next, nodes`marked
      ensures Valid() && forall n {:trigger n in nodes} :: n in nodes ==> n in old(nodes) || fresh(n)
      ensures r == (key in old(contents)) && contents == old(contents) - {key}
      ensures peak <= 66
    {
      hide ListOk, Pow2, Live, Cells, After, Stops, DataKey;
      var pred, curr, found, i, p := FindData(key, 2);
      peak := p;
      if !found {
        return false, peak;
      }
      SizeAfter(contents, key, contents[key]);
      EraseNode(i, pred, curr, key, wins);
      size := size - 1;
      r := true;
    }

    /** Marks the live node `curr` behind `pred` and, if the second compare-and-swap wins, unlinks it. */
    method EraseNode(ghost i: nat, pred: Node<V>, curr: Node<V>, ghost key: int, wins: bool)
      requires ListOk() && Live(Cells(spine), i + 1, key) && spine[i] == pred && spine[i + 1] == curr
      modifies this`spine, this`nodes, this`reclaimed, this`contents, nodes`next, nodes`marked
      ensures ListOk() && contents == old(contents) - {key} && nodes <= old(nodes)
      ensures wins ==> curr !in nodes && curr in reclaimed
    {
      assert spine[i] in nodes && spine[i + 1] in nodes;
      hide CellsOk, Chained, Cells, Members;
      Mark(i + 1, curr, key);
      if wins {
        Unlink(i, pred, curr);
        reclaimed := reclaimed + {curr};
      }
    }

    /** Doubles the bucket count if there are more keys than buckets. No node moves. */
    method Grow()
      requires CountOk() && (size > bucketCount ==> doublings < WORD)
      modifies this`bucketCount, this`doublings
      ensures CountOk() && bucketCount == if size > old(bucketCount) then 2 * old(bucketCount) else old(bucketCount)
    {
      var count := bucketCount;
      if size <= count {
        return;
      }
      PowersDouble(doublings);
      bucketCount, doublings := count * 2, doublings + 1;
    }

    /** Puts the new data node `n` behind `pred`. */
    method Insert(ghost i: nat, pred: Node<V>, curr: Node?<V>, n: Node<V>, ghost key: int, ghost value: V)
      requires ListOk() && i < |spine| && spine[i] == pred && curr == After(spine, i) && n !in nodes && key !in contents
      requires CellOf(n) == Cell(DataKey(hasher(key)), Some(key), Some(value), false)
      requires Before(pred.order, pred.key, n.order, n.key)
      requires i + 1 < |spine| ==> Before(n.order, n.key, spine[i + 1].order, spine[i + 1].key)
      modifies this`spine, this`nodes, this`contents, nodes`next, n`next
      ensures ListOk() && contents == old(contents)[key := value] && nodes == old(nodes) + {n}
    {
      assert spine[i] in nodes && n !in spine;
      hide CellsOk, Chained, Cells, Members, Links, DataKey, Before;
      n.next := curr;
      Link(i, pred, n);
    }

    /** Where a new node for `key` goes, searching from its bucket's sentinel. */
    method FindPlace(key: int) returns (pred: Node<V>, curr: Node?<V>, found: bool, ghost i: nat, ghost peak: nat)
      requires Valid()
      modifies this`spine, this`nodes, this`reclaimed, this`contents, nodes`next
      ensures Valid() && contents == old(contents) && forall n {:trigger n in nodes} :: n in nodes ==> n in old(nodes) || fresh(n)
      ensures i < |spine| && spine[i] == pred && curr == After(spine, i)
      ensures found == (key in contents)
      ensures found ==> i + 1 < |spine| && spine[i + 1] == curr && Live(Cells(spine), i + 1, key)
      ensures !found ==> Before(pred.order, pred.key, DataKey(hasher(key)), Some(key))
      ensures !found && i + 1 < |spine| ==> Before(DataKey(hasher(key)), Some(key), spine[i + 1].order, spine[i + 1].key)
      ensures peak <= 2 * WORD + 2
    {
      hide Pow2, DataKey, CountOk;
      ghost var p: nat;
      pred, curr, found, i, p := FindData(key, 0);
      SearchTells(Cells(spine), i, key, hasher, contents);
      peak := if p < 2 then 2 else p;
    }

    /** Inserts `key` with `value`, or replaces its value. The list may hold at most 2^32 keys. */
    method Put(key: int, value: V) returns (inserted: bool, ghost peak: nat)
      requires Valid() && size < Pow2(WORD)
      modifies this`spine, this`nodes, this`reclaimed, this`contents, this`size, this`bucketCount, this`doublings, nodes`next, nodes`value
      ensures Valid() && forall n {:trigger n in nodes} :: n in nodes ==> n in old(nodes) || fresh(n)
      ensures inserted == (key !in old(contents)) && contents == old(contents)[key := value]
      ensures peak <= 66
    {
      hide Pow2, ListOk, DataKey, Before, Live, Cells, After;
      SizeAfter(contents, key, value);
      var n := new Node<V>(DataKey(hasher(key)), Some(key), Some(value), null);
      var pred, curr, found, i, p := FindPlace(key);
      peak := p;
      if found {
        assert curr in nodes by { ListMember(i + 1); }
        SetValue(i + 1, curr, key, value);
        return false, peak;
      }
      Insert(i, pred, curr, n, key, value);
      CountNew();
      inserted := true;
    }

    /** Counts a new key, growing if there are now more keys than buckets. */
    method CountNew()
      requires bucketCount == Pow2(doublings) && doublings <= WORD && size + 1 == |contents| && size <= bucketCount && size < Pow2(WORD)
      modifies this`size, this`bucketCount, this`doublings
      ensures CountOk() && size <= bucketCount
    {
      hide Pow2;
      size := size + 1;
      if size > bucketCount {
        PowersDouble(doublings);
        Grow();
      }
    }

    lemma ListMember(i: nat)
      requires ListOk() && i < |spine|
      ensures spine[i] in nodes
    {
    }
  }

  // ---------------------------------------------------------------- it is a map

  datatype Op<+V> = GetOp(key: int) | PutOp(key: int, value: V) | EraseOp(key: int, wins: bool) | ContainsOp(key: int)
  datatype Answer<+V> = Value(value: Option<V>) | Flag(flag: bool)

  /** How a mathematical map answers an operation, and what the operation makes of it. */
  function AnswerOf<V>(m: map<int, V>, op: Op<V>): Answer<V> {
    match op
    case GetOp(k) => Value(if k in m then Some(m[k]) else None)
    case PutOp(k, _) => Flag(k !in m)
    case EraseOp(k, _) => Flag(k in m)
    case ContainsOp(k) => Flag(k in m)
  }

  function Update<V>(m: map<int, V>, op: Op<V>): map<int, V> {
    match op
    case PutOp(k, v) => m[k := v]
    case EraseOp(k, _) => m - {k}
    case GetOp(_) => m
    case ContainsOp(_) => m
  }

  function Final<V>(ops: seq<Op<V>>): map<int, V> {
    if ops == [] then map[] else Update(Final(ops[..|ops| - 1]), ops[|ops| - 1])
  }

  function Answers<V>(ops: seq<Op<V>>): seq<Answer<V>> {
    if ops == [] then [] else
      Answers(ops[..|ops| - 1]) + [AnswerOf(Final(ops[..|ops| - 1]), ops[|ops| - 1])]
  }

  lemma {:induction false} FinalBound<V>(ops: seq<Op<V>>)
    ensures |Final(ops)| <= |ops|
  {
    if ops != [] {
      var m, op := Final(ops[..|ops| - 1]), ops[|ops| - 1];
      FinalBound(ops[..|ops| - 1]);
      match op
      case PutOp(k, v) => SizeAfter(m, k, v);
      case EraseOp(k, _) => if k in m { SizeAfter(m, k, m[k]); } else { assert m - {k} == m; }
      case GetOp(_) =>
      case ContainsOp(_) =>
    }
  }

  /** One operation answers as the map and updates it as the map is updated. */
  method Perform<V>(m: HashMap<V>, op: Op<V>) returns (answer: Answer<V>)
    requires m.Valid() && m.size < Pow2(WORD)
    modifies m, m.nodes
    ensures m.Valid() && forall n {:trigger n in m.nodes} :: n in m.nodes ==> n in old(m.nodes) || fresh(n)
    ensures answer == AnswerOf(old(m.contents), op) && m.contents == Update(old(m.contents), op)
  {
    hide Pow2;
    match op {
      case GetOp(k) =>
        var r, p := m.Get(k);
        answer := Value(r);
      case PutOp(k, v) =>
        var r, p := m.Put(k, v);
        answer := Flag(r);
      case EraseOp(k, wins) =>
        var r, p := m.Erase(k, wins);
        answer := Flag(r);
      case ContainsOp(k) =>
        var r, p := m.Contains(k);
        answer := Flag(r);
    }
  }

  /** Any sequence of operations on a new hash map, with any initial bucket count and any hash, answers as
      a mathematical map; in the end the bucket count is a power of two no less than the size. */
  method Replay<V>(initial: nat, hasher: int -> nat, ops: seq<Op<V>>) returns (answers: seq<Answer<V>>, size: nat, buckets: nat)
    requires initial <= Pow2(WORD) && |ops| <= Pow2(WORD)
    ensures answers == Answers(ops)
    ensures size == |Final(ops)| <= buckets && exists k: nat :: buckets == Pow2(k)
  {
    hide Pow2;
    var m := new HashMap<V>(initial, hasher);
    answers := [];
    var i := 0;
    while i < |ops|
      invariant 0 <= i <= |ops| && m.Valid() && fresh(m) && fresh(m.nodes)
      invariant answers == Answers(ops[..i]) && m.contents == Final(ops[..i])
    {
      FinalBound(ops[..i]);
      assert ops[..i + 1][..i] == ops[..i];
      var answer := Perform(m, ops[i]);
      answers := answers + [answer];
      i := i + 1;
    }
    assert ops[..i] == ops;
    size, buckets := m.size, m.bucketCount;
  }
}
