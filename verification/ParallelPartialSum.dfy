/** The in-place partial sum (include/parallel_partial_sum.hpp): every chunk is summed by its own thread,
    which then waits for the end value of the chunk before it, adds it to its own last element, passes that
    on at once and only then adjusts the rest. The threads run in any interleaving, one step at a time. What
    they leave is told for any operation, and when that is the prefix sums. */
module ParallelPartialSum {
  import opened ParallelScan

  ghost predicate Commutative<T(!new)>(op: (T, T) -> T) {
    forall a, b {:trigger op(a, b)} :: op(a, b) == op(b, a)
  }

  /** Where the thread of a chunk is. */
  datatype Phase<T> =
    | Sum(at: nat)                // std::partial_sum: about to write place `at`
    | Await                       // about to get the end value of the chunk before
    | Last(addend: T)             // about to add it to its last element
    | Tell                        // first chunk: about to set its end value
    | Pass(addend: T)             // about to set its end value
    | Adjust(at: nat, addend: T)  // about to adjust place `at`
    | Finished

  function Lo(n: nat, k: nat, i: nat): nat
    requires k > 0
  {
    Bound(n, k, i)
  }

  function Hi(n: nat, k: nat, i: nat): nat
    requires k > 0
  {
    Bound(n, k, i + 1)
  }

  /** The end value that chunk `i` gets from the chunk before it (chunk 0 gets none). Each chunk adds what it
      gets on the right of its own sum. */
  ghost function Ahead<T>(op: (T, T) -> T, s: seq<T>, k: nat, i: nat): T
    requires 0 < k <= |s| && i <= k
  {
    if i == 0 then s[0]
    else
      BlocksPartition(|s|, k, i - 1);
      Whole(op, s, Lo(|s|, k, i - 1), Ahead(op, s, k, i - 1), Hi(|s|, k, i - 1) - 1)
  }

  /** What place `p` of a chunk that begins at `lo` and gets `ahead` ends up with. */
  ghost function Whole<T>(op: (T, T) -> T, s: seq<T>, lo: nat, ahead: T, p: nat): T
    requires lo <= p < |s|
  {
    if lo == 0 then Fold(op, s[..p + 1]) else op(Fold(op, s[lo..p + 1]), ahead)
  }

  /** What place `p` of a chunk [lo, hi) holds, told by its thread's phase. */
  ghost function Place<T>(op: (T, T) -> T, s: seq<T>, lo: nat, hi: nat, ahead: T, ph: Phase<T>, p: nat): T
    requires lo <= p < hi <= |s|
  {
    var mine, whole := Fold(op, s[lo..p + 1]), Whole(op, s, lo, ahead, p);
    match ph
    case Sum(at) => if p < at then mine else s[p]
    case Await => mine
    case Last(_) => mine
    case Tell => mine
    case Pass(_) => if p == hi - 1 then whole else mine
    case Adjust(at, _) => if p < at || p == hi - 1 then whole else mine
    case Finished => whole
  }

  /** What a chunk's thread knows in each phase. */
  ghost predicate PhaseOk<T>(s: seq<T>, lo: nat, hi: nat, ahead: T, ph: Phase<T>) {
    && lo < hi <= |s|
    && match ph
       case Sum(at) => lo < at <= hi
       case Await => lo > 0
       case Last(x) => lo > 0 && x == ahead
       case Tell => lo == 0
       case Pass(x) => lo > 0 && x == ahead
       case Adjust(at, x) => lo > 0 && lo <= at <= hi - 1 && x == ahead
       case Finished => true
  }

  ghost predicate ChunkOk<T>(op: (T, T) -> T, s: seq<T>, a: seq<T>, k: nat, ph: seq<Phase<T>>, told: map<nat, T>, i: nat)
    requires 0 < k <= |s| == |a| && i < k == |ph|
  {
    var lo, hi := Lo(|s|, k, i), Hi(|s|, k, i);
    && PhaseOk(s, lo, hi, Ahead(op, s, k, i), ph[i])
    && (forall p: nat {:trigger a[p]} :: lo <= p < hi ==> a[p] == Place(op, s, lo, hi, Ahead(op, s, k, i), ph[i], p))
    && ((ph[i].Adjust? || ph[i].Finished?) && i + 1 < k ==> i in told)
    && (i in told ==> told[i] == Ahead(op, s, k, i + 1))
  }

  ghost predicate ChunksOk<T>(op: (T, T) -> T, s: seq<T>, a: seq<T>, k: nat, ph: seq<Phase<T>>, told: map<nat, T>)
    requires 0 < k <= |s| == |a|
  {
    |ph| == k && forall i: nat {:trigger ChunkOk(op, s, a, k, ph, told, i)} :: i < k ==> ChunkOk(op, s, a, k, ph, told, i)
  }

  // ---------------------------------------------------------------- one step of one chunk

  /** A chunk's thread waits only for the chunk before it. */
  predicate Ready<T(==)>(ph: seq<Phase<T>>, told: map<nat, T>, i: nat) {
    i < |ph| && ph[i] != Finished && (ph[i].Await? ==> 0 < i && i - 1 in told)
  }

  /** The next phase of chunk `i`, and the place that the step writes (or `n`, none) and with what. */
  function After<T>(op: (T, T) -> T, a: seq<T>, lo: nat, hi: nat, ph: Phase<T>, before: T): (Phase<T>, nat, T)
    requires lo < hi <= |a|
    requires ph.Sum? ==> lo < ph.at <= hi
    requires ph.Adjust? ==> lo <= ph.at <= hi - 1
  {
    match ph
    case Sum(at) =>
      if at < hi then (Sum(at + 1), at, op(a[at - 1], a[at])) else (if lo == 0 then Tell else Await, |a|, before)
    case Await => (Last(before), |a|, before)
    case Last(x) => (Pass(x), hi - 1, op(a[hi - 1], x))
    case Tell => (Finished, |a|, before)
    case Pass(x) => (Adjust(lo, x), |a|, before)
    case Adjust(at, x) => if at < hi - 1 then (Adjust(at + 1, x), at, op(a[at], x)) else (Finished, |a|, before)
    case Finished => (Finished, |a|, before)
  }

  function Written<T>(a: seq<T>, p: nat, v: T): (b: seq<T>)
    ensures |b| == |a|
  {
    if p < |a| then a[p := v] else a
  }

  /** Adding what lies ahead to a chunk's own sum gives the whole sum; the code adds it on the right. */
  lemma AheadJoins<T(!new)>(op: (T, T) -> T, s: seq<T>, lo: nat, p: nat)
    requires Associative(op) && Commutative(op) && 0 < lo <= p < |s|
    ensures op(Fold(op, s[lo..p + 1]), Fold(op, s[..lo])) == Fold(op, s[..p + 1])
  {
    FoldJoins(op, s[..lo], s[lo..p + 1]);
    assert s[..p + 1] == s[..lo] + s[lo..p + 1];
  }

  lemma MineSnoc<T>(op: (T, T) -> T, s: seq<T>, lo: nat, p: nat)
    requires lo < p < |s|
    ensures Fold(op, s[lo..p + 1]) == op(Fold(op, s[lo..p]), s[p])
  {
    assert s[lo..p + 1][..p - lo] == s[lo..p];
  }

  lemma MineIsWhole<T>(op: (T, T) -> T, s: seq<T>, p: nat)
    requires p < |s|
    ensures Fold(op, s[0..p + 1]) == Fold(op, s[..p + 1])
  {
    assert s[0..p + 1] == s[..p + 1];
  }

  lemma PlaceStep<T>(op: (T, T) -> T, s: seq<T>, a: seq<T>, lo: nat, hi: nat, ahead: T, ph: Phase<T>, before: T, p: nat)
    requires |a| == |s| && PhaseOk(s, lo, hi, ahead, ph) && lo <= p < hi
    requires a[p] == Place(op, s, lo, hi, ahead, ph, p) && (lo < p ==> a[p - 1] == Place(op, s, lo, hi, ahead, ph, p - 1))
    ensures var (next, q, v) := After(op, a, lo, hi, ph, before); Written(a, q, v)[p] == Place(op, s, lo, hi, ahead, next, p)
  {
    if lo == 0 { MineIsWhole(op, s, p); }
    if ph.Sum? && p == ph.at { MineSnoc(op, s, lo, p); }
    hide Fold;
  }

  /** One chunk's step keeps what is told of the chunk. */
  lemma PhaseStep<T>(op: (T, T) -> T, s: seq<T>, a: seq<T>, lo: nat, hi: nat, ahead: T, ph: Phase<T>, before: T)
    requires |a| == |s| && PhaseOk(s, lo, hi, ahead, ph)
    requires forall p: nat {:trigger a[p]} :: lo <= p < hi ==> a[p] == Place(op, s, lo, hi, ahead, ph, p)
    requires ph.Await? ==> before == ahead
    ensures var (next, q, v) := After(op, a, lo, hi, ph, before);
      && PhaseOk(s, lo, hi, ahead, next) && (lo <= q < hi || q == |a|)
      && forall p: nat {:trigger Written(a, q, v)[p]} :: lo <= p < hi ==> Written(a, q, v)[p] == Place(op, s, lo, hi, ahead, next, p)
  {
    var (next, q, v) := After(op, a, lo, hi, ph, before);
    var b := Written(a, q, v);
    hide Fold, Place;
    forall p: nat {:trigger b[p]} | lo <= p < hi ensures b[p] == Place(op, s, lo, hi, ahead, next, p) {
      assert a[p] == Place(op, s, lo, hi, ahead, ph, p);
      if lo < p { assert a[p - 1] == Place(op, s, lo, hi, ahead, ph, p - 1); }
      PlaceStep(op, s, a, lo, hi, ahead, ph, before, p);
    }
  }

  /** What the step tells the next chunk. */
  function Telling<T>(a: seq<T>, k: nat, hi: nat, ph: Phase<T>, told: map<nat, T>, i: nat): map<nat, T>
    requires 0 < hi <= |a|
  {
    if (ph.Tell? || ph.Pass?) && i + 1 < k then told[i := a[hi - 1]] else told
  }

  lemma OtherChunk<T>(op: (T, T) -> T, s: seq<T>, a: seq<T>, k: nat, ph: seq<Phase<T>>, told: map<nat, T>,
                      i: nat, next: Phase<T>, q: nat, v: T, told': map<nat, T>, j: nat)
    requires 0 < k <= |s| == |a| && i < k && j < k == |ph| && i != j && ChunkOk(op, s, a, k, ph, told, j)
    requires Lo(|s|, k, i) <= q < Hi(|s|, k, i) || q == |a|
    requires (j in told' <==> j in told) && (j in told ==> told'[j] == told[j])
    ensures ChunkOk(op, s, Written(a, q, v), k, ph[i := next], told', j)
  {
    var b, lo, hi := Written(a, q, v), Lo(|s|, k, j), Hi(|s|, k, j);
    hide Fold, Place, Bound;
    forall p: nat {:trigger b[p]} | lo <= p < hi ensures b[p] == Place(op, s, lo, hi, Ahead(op, s, k, j), ph[j], p) {
      assert a[p] == Place(op, s, lo, hi, Ahead(op, s, k, j), ph[j], p);
      if p == q { BlocksApart(|s|, k, i, j, p); }
    }
  }

  lemma ThisChunk<T>(op: (T, T) -> T, s: seq<T>, a: seq<T>, k: nat, ph: seq<Phase<T>>, told: map<nat, T>, i: nat, before: T)
    requires 0 < k <= |s| == |a| && ChunksOk(op, s, a, k, ph, told) && i < k && Ready(ph, told, i)
    requires ph[i].Await? ==> before == told[i - 1]
    ensures var lo, hi := Lo(|s|, k, i), Hi(|s|, k, i); PhaseOk(s, lo, hi, Ahead(op, s, k, i), ph[i])
    ensures var lo, hi := Lo(|s|, k, i), Hi(|s|, k, i); var (next, q, v) := After(op, a, lo, hi, ph[i], before);
      && ChunkOk(op, s, Written(a, q, v), k, ph[i := next], Telling(a, k, hi, ph[i], told, i), i)
      && (lo <= q < hi || q == |a|)
  {
    assert ChunkOk(op, s, a, k, ph, told, i);
    var lo, hi := Lo(|s|, k, i), Hi(|s|, k, i);
    if ph[i].Await? {
      assert ChunkOk(op, s, a, k, ph, told, i - 1);
    }
    assert a[hi - 1] == Place(op, s, lo, hi, Ahead(op, s, k, i), ph[i], hi - 1);
    if lo == 0 { MineIsWhole(op, s, hi - 1); }
    hide Fold, Bound;
    PhaseStep(op, s, a, lo, hi, Ahead(op, s, k, i), ph[i], before);
  }

  lemma ChunksStep<T>(op: (T, T) -> T, s: seq<T>, a: seq<T>, k: nat, ph: seq<Phase<T>>, told: map<nat, T>, i: nat, before: T)
    requires 0 < k <= |s| == |a| && ChunksOk(op, s, a, k, ph, told) && i < k && Ready(ph, told, i)
    requires ph[i].Await? ==> before == told[i - 1]
    ensures var lo, hi := Lo(|s|, k, i), Hi(|s|, k, i); PhaseOk(s, lo, hi, Ahead(op, s, k, i), ph[i])
    ensures var lo, hi := Lo(|s|, k, i), Hi(|s|, k, i); var (next, q, v) := After(op, a, lo, hi, ph[i], before);
      && ChunksOk(op, s, Written(a, q, v), k, ph[i := next], Telling(a, k, hi, ph[i], told, i))
      && (lo <= q < hi || q == |a|)
  {
    ThisChunk(op, s, a, k, ph, told, i, before);
    var lo, hi := Lo(|s|, k, i), Hi(|s|, k, i);
    var (next, q, v) := After(op, a, lo, hi, ph[i], before);
    var told' := Telling(a, k, hi, ph[i], told, i);
    var b, ph' := Written(a, q, v), ph[i := next];
    assert forall j: nat {:trigger j in told'} :: j != i ==> (j in told' <==> j in told) && (j in told ==> told'[j] == told[j]);
    hide After, Telling, PhaseOk;
    forall j: nat | j < k ensures ChunkOk(op, s, b, k, ph', told', j) {
      if j != i {
        assert ChunkOk(op, s, a, k, ph, told, j);
        OtherChunk(op, s, a, k, ph, told, i, next, q, v, told', j);
      }
    }
  }

  // ---------------------------------------------------------------- every schedule ends

  function Cost<T>(lo: nat, hi: nat, ph: Phase<T>): nat
    requires lo <= hi
  {
    match ph
    case Sum(at) => (if at < hi then hi - at else 0) + hi - lo + 5
    case Await => hi - lo + 4
    case Last(_) => hi - lo + 3
    case Tell => hi - lo + 2
    case Pass(_) => hi - lo + 2
    case Adjust(at, _) => (if at < hi then hi - at else 0) + 1
    case Finished => 0
  }

  function Costs<T>(n: nat, k: nat, ph: seq<Phase<T>>, j: nat): nat
    requires 0 < k <= n && j <= k == |ph|
  {
    if j == 0 then 0 else
      BlocksPartition(n, k, j - 1);
      Costs(n, k, ph, j - 1) + Cost(Lo(n, k, j - 1), Hi(n, k, j - 1), ph[j - 1])
  }

  lemma {:induction false} CostsDrop<T>(n: nat, k: nat, ph: seq<Phase<T>>, i: nat, next: Phase<T>, j: nat)
    requires 0 < k <= n && i < k == |ph| && j <= k
    requires Lo(n, k, i) < Hi(n, k, i) && Cost(Lo(n, k, i), Hi(n, k, i), next) < Cost(Lo(n, k, i), Hi(n, k, i), ph[i])
    ensures if i < j then Costs(n, k, ph[i := next], j) < Costs(n, k, ph, j) else Costs(n, k, ph[i := next], j) == Costs(n, k, ph, j)
  {
    if j > 0 {
      hide Cost, Bound;
      CostsDrop(n, k, ph, i, next, j - 1);
    }
  }

  lemma StepCosts<T>(op: (T, T) -> T, s: seq<T>, a: seq<T>, lo: nat, hi: nat, ahead: T, ph: Phase<T>, before: T)
    requires |a| == |s| && PhaseOk(s, lo, hi, ahead, ph) && ph != Finished
    ensures Cost(lo, hi, After(op, a, lo, hi, ph, before).0) < Cost(lo, hi, ph)
  {
  }

  /** Some chunk can always step: the first unfinished one waits for nobody. */
  lemma SomeReady<T>(op: (T, T) -> T, s: seq<T>, a: seq<T>, k: nat, ph: seq<Phase<T>>, told: map<nat, T>, j: nat) returns (i: nat)
    requires 0 < k <= |s| == |a| && ChunksOk(op, s, a, k, ph, told) && j < k && ph[j] != Finished
    ensures i < k && Ready(ph, told, i)
  {
    i := 0;
    while ph[i] == Finished
      invariant i <= j && forall l: nat :: l < i ==> ph[l] == Finished
      decreases j - i
    {
      i := i + 1;
    }
    assert ChunkOk(op, s, a, k, ph, told, i);
    if i > 0 { assert ChunkOk(op, s, a, k, ph, told, i - 1); }
    BlocksPartition(|s|, k, 0);
  }

  // ---------------------------------------------------------------- the algorithm

  function Begun<T>(n: nat, k: nat, i: nat): (ph: seq<Phase<T>>)
    requires 0 < k && i <= k
    ensures |ph| == i && forall j: nat {:trigger ph[j]} :: j < i ==> ph[j] == Sum(Lo(n, k, j) + 1)
  {
    if i == 0 then [] else Begun(n, k, i - 1) + [Sum(Lo(n, k, i - 1) + 1)]
  }

  lemma BegunOk<T>(op: (T, T) -> T, s: seq<T>, k: nat)
    requires 0 < k <= |s|
    ensures ChunksOk(op, s, s, k, Begun(|s|, k, k), map[])
  {
    var ph := Begun(|s|, k, k);
    forall i: nat | i < k ensures ChunkOk(op, s, s, k, ph, map[], i) {
      BlocksPartition(|s|, k, i);
      var lo, hi := Lo(|s|, k, i), Hi(|s|, k, i);
      assert s[lo..lo + 1] == [s[lo]];
    }
  }

  /** `r` is what the threads leave of `s`, in whatever order they run. */
  ghost predicate Computes<T>(op: (T, T) -> T, s: seq<T>, k: nat, r: seq<T>)
    requires 0 < k <= |s|
  {
    |r| == |s| && forall i: nat, p: nat {:trigger InChunk(|s|, k, i, p)} :: InChunk(|s|, k, i, p) ==> r[p] == Left(op, s, k, i, p)
  }

  predicate InChunk(n: nat, k: nat, i: nat, p: nat)
    requires 0 < k
  {
    i < k && Lo(n, k, i) <= p < Hi(n, k, i) <= n
  }

  ghost function Left<T>(op: (T, T) -> T, s: seq<T>, k: nat, i: nat, p: nat): T
    requires 0 < k <= |s| && InChunk(|s|, k, i, p)
  {
    Whole(op, s, Lo(|s|, k, i), Ahead(op, s, k, i), p)
  }

  lemma AllFinished<T>(op: (T, T) -> T, s: seq<T>, a: seq<T>, k: nat, ph: seq<Phase<T>>, told: map<nat, T>)
    requires 0 < k <= |s| == |a| && ChunksOk(op, s, a, k, ph, told) && forall i: nat {:trigger ph[i]} :: i < k ==> ph[i] == Finished
    ensures Computes(op, s, k, a)
  {
    forall i: nat, p: nat | InChunk(|s|, k, i, p) ensures a[p] == Left(op, s, k, i, p) {
      assert ChunkOk(op, s, a, k, ph, told, i) && ph[i] == Finished;
    }
  }

  // ---------------------------------------------------------------- when that is the prefix sums

  /** What the threads leave of `s` is its prefix sums. */
  ghost predicate Right<T>(op: (T, T) -> T, s: seq<T>, k: nat)
    requires 0 < k <= |s|
  {
    forall i: nat, p: nat {:trigger InChunk(|s|, k, i, p)} :: InChunk(|s|, k, i, p) ==> Left(op, s, k, i, p) == Fold(op, s[..p + 1])
  }

  lemma ComputesRight<T>(op: (T, T) -> T, s: seq<T>, k: nat, r: seq<T>)
    requires 0 < k <= |s| && Computes(op, s, k, r)
    ensures r == Inclusive(op, s) <==> Right(op, s, k)
  {
    hide Fold, Left;
    if Right(op, s, k) {
      forall p: nat | p < |s| ensures r[p] == Fold(op, s[..p + 1]) {
        BlocksPartition(|s|, k, k - 1);
        var i := BlockOf(|s|, k, k, p);
        BlocksPartition(|s|, k, i);
        assert InChunk(|s|, k, i, p);
      }
    }
  }

  lemma {:induction false} AheadIsPrefix<T(!new)>(op: (T, T) -> T, s: seq<T>, k: nat, i: nat)
    requires Associative(op) && Commutative(op) && 0 < k <= |s| && 0 < i <= k
    ensures 0 < Lo(|s|, k, i) <= |s| && Ahead(op, s, k, i) == Fold(op, s[..Lo(|s|, k, i)])
  {
    var j := i - 1;
    BlocksPartition(|s|, k, j);
    var lo, hi := Lo(|s|, k, j), Hi(|s|, k, j);
    if j > 0 {
      AheadIsPrefix(op, s, k, j);
      AheadJoins(op, s, lo, hi - 1);
    } else {
      assert lo == 0;
    }
    hide Fold, Bound;
    assert s[..hi - 1 + 1] == s[..hi];
  }

  lemma SumsAreRight<T(!new)>(op: (T, T) -> T, s: seq<T>, k: nat)
    requires Associative(op) && Commutative(op) && 0 < k <= |s|
    ensures Right(op, s, k)
  {
    forall i: nat, p: nat | InChunk(|s|, k, i, p) ensures Left(op, s, k, i, p) == Fold(op, s[..p + 1]) {
      if i > 0 {
        AheadIsPrefix(op, s, k, i);
        hide Fold;
        AheadJoins(op, s, Lo(|s|, k, i), p);
      }
    }
  }

  ghost predicate Identity<T(!new)>(op: (T, T) -> T, e: T) {
    forall a {:trigger op(e, a)} {:trigger op(a, e)} :: op(e, a) == a == op(a, e)
  }

  function Padded<T>(n: nat, a: T, m: nat, b: T, e: T): (s: seq<T>)
    requires 0 < m < n
    ensures |s| == n && s[0] == a && s[m] == b && forall j :: 0 < j < n && j != m ==> s[j] == e
  {
    seq(n, j requires 0 <= j < n => if j == 0 then a else if j == m then b else e)
  }

  lemma {:induction false} FoldPadded<T(!new)>(op: (T, T) -> T, n: nat, a: T, m: nat, b: T, e: T, p: nat)
    requires Identity(op, e) && 0 < p <= m < n
    ensures Fold(op, Padded(n, a, m, b, e)[..p]) == a
  {
    var s := Padded(n, a, m, b, e);
    FoldSnoc(op, s, p - 1);
    if p > 1 { FoldPadded(op, n, a, m, b, e, p - 1); }
  }

  /** With two chunks or more the order of the code's additions shows at the first place of the second. */
  lemma SecondChunk<T(!new)>(op: (T, T) -> T, e: T, n: nat, k: nat, a: T, b: T) returns (s: seq<T>)
    requires Identity(op, e) && 1 < k <= n
    ensures |s| == n && (Right(op, s, k) ==> op(b, a) == op(a, b))
  {
    BlocksPartition(n, k, 0);
    BlocksPartition(n, k, 1);
    var m := Lo(n, k, 1);
    s := Padded(n, a, m, b, e);
    assert InChunk(n, k, 1, m);
    FoldPadded(op, n, a, m, b, e, m);
    FoldSnoc(op, s, m);
    assert s[m..m + 1] == [b];
    assert Ahead(op, s, k, 0) == a && Ahead(op, s, k, 1) == a by { assert s[..m - 1 + 1] == s[..m]; }
    assert Left(op, s, k, 1, m) == op(b, a);
  }

  /** The code computes the prefix sums of every sequence of length `n` exactly if it uses one chunk or the
      operation commutes, for every associative operation with an identity. */
  lemma OrderMatters<T(!new)>(op: (T, T) -> T, e: T, n: nat, k: nat)
    requires Associative(op) && Identity(op, e) && 0 < k <= n
    ensures (forall s: seq<T> {:trigger Right(op, s, k)} :: |s| == n ==> Right(op, s, k)) <==> k == 1 || Commutative(op)
  {
    if k == 1 {
      forall s: seq<T> | |s| == n ensures Right(op, s, k) {
        OneChunk(op, s);
      }
    } else if Commutative(op) {
      forall s: seq<T> | |s| == n ensures Right(op, s, k) {
        SumsAreRight(op, s, k);
      }
    } else {
      var a, b :| op(a, b) != op(b, a);
      var s := SecondChunk(op, e, n, k, a, b);
    }
  }

  lemma OneChunk<T>(op: (T, T) -> T, s: seq<T>)
    requires |s| > 0
    ensures Right(op, s, 1)
  {
    hide Fold;
  }

  /** One step of the thread of chunk `i`. */
  method StepChunk<T>(a: array<T>, op: (T, T) -> T, ghost s: seq<T>, k: nat, ph: seq<Phase<T>>, told: map<nat, T>, i: nat)
    returns (ph': seq<Phase<T>>, told': map<nat, T>)
    requires 0 < k <= |s| == a.Length && ChunksOk(op, s, a[..], k, ph, told)
    requires i < k && Ready(ph, told, i)
    modifies a
    ensures ChunksOk(op, s, a[..], k, ph', told') && Costs(a.Length, k, ph', k) < Costs(a.Length, k, ph, k)
  {
    var n := a.Length;
    BlocksPartition(n, k, i);
    var lo, hi := Lo(n, k, i), Hi(n, k, i);
    var before := if ph[i].Await? then told[i - 1] else a[0];
    ChunksStep(op, s, a[..], k, ph, told, i, before);
    StepCosts(op, s, a[..], lo, hi, Ahead(op, s, k, i), ph[i], before);
    var (next, q, v) := After(op, a[..], lo, hi, ph[i], before);
    CostsDrop(n, k, ph, i, next, k);
    told' := Telling(a[..], k, hi, ph[i], told, i);
    ph' := ph[i := next];
    hide ChunksOk, After, Bound, Cost, Costs, Telling, PhaseOk;
    ghost var b := Written(a[..], q, v);
    if q < n {
      a[q] := v;
    }
    assert a[..] == b;
  }

  lemma Deterministic<T(!new)>(op: (T, T) -> T, s: seq<T>, k: nat, r: seq<T>)
    requires 0 < k <= |s| && Computes(op, s, k, r)
    ensures r == Inclusive(op, s) <==> Right(op, s, k)
    ensures Associative(op) && Commutative(op) ==> Right(op, s, k)
  {
    hide Right, Computes, Associative, Commutative;
    ComputesRight(op, s, k, r);
    if Associative(op) && Commutative(op) { SumsAreRight(op, s, k); }
  }

  /** parallel_partial_sum: for every operation, every length, any number of hardware threads and every
      interleaving of the chunks' threads, the threads all end and leave the same array. It holds the
      sequential prefix sums if the operation is associative and commutative, and otherwise exactly if the
      order of the additions does not matter for this array. */
  method ParallelPartialSum<T(!new,==)>(a: array<T>, op: (T, T) -> T, hardware: nat)
    modifies a
    ensures Associative(op) && Commutative(op) ==> a[..] == Inclusive(op, old(a[..]))
    ensures 0 < Threads(a.Length, hardware) <= a.Length ==>
              Computes(op, old(a[..]), Threads(a.Length, hardware), a[..])
              && (a[..] == Inclusive(op, old(a[..])) <==> Right(op, old(a[..]), Threads(a.Length, hardware)))
    ensures 0 < a.Length ==> 0 < Threads(a.Length, hardware) <= a.Length
  {
    var n := a.Length;
    if n == 0 {
      return;
    }
    ghost var s := a[..];
    var k := Threads(n, hardware);
    var ph: seq<Phase<T>> := Begun(n, k, k);
    var told: map<nat, T> := map[];
    BegunOk(op, s, k);
    while exists j: nat :: j < k && ph[j] != Finished
      invariant ChunksOk(op, s, a[..], k, ph, told)
      decreases Costs(n, k, ph, k)
    {
      ghost var u: nat :| u < k && ph[u] != Finished;
      ghost var ready := SomeReady(op, s, a[..], k, ph, told, u);
      hide ChunkOk, Costs;
      var i: nat :| i < k && Ready(ph, told, i);
      ph, told := StepChunk(a, op, s, k, ph, told, i);
    }
    AllFinished(op, s, a[..], k, ph, told);
    Deterministic(op, s, k, a[..]);
  }
}
