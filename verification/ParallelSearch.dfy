/** The early-exit searches (include/parallel_find.hpp, include/parallel_predicates.hpp): leaves scan
    their parts in any interleaving and stop when they see the shared flag `done`.

    A search is the tree of the activations so far. Each step is one load of `done`, one test of an
    element (which stores `done` on a hit) or one return; any activation that can step may step next.
    `parallel_any_of` is the same tree read as truth values: a branch answers true if it found a place. */
module ParallelSearch {
  const MIN_PER_THREAD: nat := 25

  datatype Search =
    | Start(lo: nat, hi: nat, depth: nat)                          // about to look at the range
    | Scan(lo: nat, hi: nat, at: nat)                              // leaf: about to load `done`
    | Test(lo: nat, hi: nat, at: nat)                              // leaf: about to test element `at`
    | Fork(lo: nat, mid: nat, hi: nat, left: Search, right: Search) // waits for both halves
    | Result(lo: nat, hi: nat, at: nat)                            // returned `at`; `hi` means not found

  predicate IsLeaf(lo: nat, hi: nat, depth: nat) { hi < lo + 2 * MIN_PER_THREAD || depth == 0 }

  function Middle(lo: nat, hi: nat): (m: nat)
    requires lo <= hi
    ensures lo <= m <= hi
  {
    lo + (hi - lo) / 2
  }

  /** The answer of a fork: the first half's, if it found a place. */
  function Combine(t: Search): Search
    requires t.Fork? && t.left.Result? && t.right.Result?
  {
    Result(t.lo, t.hi, if t.left.at == t.mid then t.right.at else t.left.at)
  }

  /** One step of an activation itself. `hit` are the elements that match. */
  predicate Moves(hit: seq<bool>, done: bool, t: Search, done': bool, t': Search) {
    match t
    case Start(lo, hi, depth) =>
      && lo <= hi && done' == done
      && t' == (if IsLeaf(lo, hi, depth) then Scan(lo, hi, lo)
                else if done then Result(lo, hi, hi)
                else Fork(lo, Middle(lo, hi), hi, Start(lo, Middle(lo, hi), depth - 1), Start(Middle(lo, hi), hi, depth - 1)))
    case Scan(lo, hi, at) => done' == done && t' == if at == hi || done then Result(lo, hi, hi) else Test(lo, hi, at)
    case Test(lo, hi, at) =>
      && at < |hit|
      && (if hit[at] then done' && t' == Result(lo, hi, at) else done' == done && t' == Scan(lo, hi, at + 1))
    case Fork(_, _, _, left, right) => left.Result? && right.Result? && done' == done && t' == Combine(t)
    case Result(_, _, _) => false
  }

  /** One step of some activation of the tree. */
  predicate Steps(hit: seq<bool>, done: bool, t: Search, done': bool, t': Search)
    decreases t
  {
    || Moves(hit, done, t, done', t')
    || (t.Fork? && t'.Fork? && t' == t.(left := t'.left) && Steps(hit, done, t.left, done', t'.left))
    || (t.Fork? && t'.Fork? && t' == t.(right := t'.right) && Steps(hit, done, t.right, done', t'.right))
  }

  datatype State = State(done: bool, tree: Search)

  ghost predicate StepAt(hit: seq<bool>, run: seq<State>, i: int) {
    0 <= i < |run| - 1 && Steps(hit, run[i].done, run[i].tree, run[i + 1].done, run[i + 1].tree)
  }

  /** A run of the search of the whole sequence with the given depth. */
  ghost predicate Run(hit: seq<bool>, depth: nat, run: seq<State>) {
    && |run| > 0 && run[0] == State(false, Start(0, |hit|, depth))
    && forall i :: 0 <= i < |run| - 1 ==> StepAt(hit, run, i)
  }

  // ---------------------------------------------------------------- the invariant

  predicate Misses(hit: seq<bool>, lo: nat, hi: nat) {
    hi <= |hit| && forall i :: lo <= i < hi ==> !hit[i]
  }

  /** Somewhere in the tree a place was found. */
  predicate Hits(t: Search) {
    match t
    case Result(_, hi, at) => at < hi
    case Fork(_, _, _, left, right) => Hits(left) || Hits(right)
    case _ => false
  }

  /** Every answer so far is right, unless the search was called off. */
  predicate TreeOk(hit: seq<bool>, done: bool, t: Search, lo: nat, hi: nat) {
    && t.lo == lo <= t.hi == hi <= |hit|
    && match t
       case Start(_, _, _) => true
       case Scan(_, _, at) => lo <= at <= hi && Misses(hit, lo, at)
       case Test(_, _, at) => lo <= at < hi && Misses(hit, lo, at)
       case Fork(_, mid, _, left, right) => lo <= mid <= hi && TreeOk(hit, done, left, lo, mid) && TreeOk(hit, done, right, mid, hi)
       case Result(_, _, at) => lo <= at <= hi && (at < hi ==> hit[at]) && (at == hi ==> done || Misses(hit, lo, hi))
  }

  lemma {:induction false} DoneKeeps(hit: seq<bool>, done: bool, t: Search, lo: nat, hi: nat)
    requires TreeOk(hit, done, t, lo, hi)
    ensures TreeOk(hit, true, t, lo, hi)
    decreases t
  {
    if t.Fork? {
      DoneKeeps(hit, done, t.left, lo, t.mid);
      DoneKeeps(hit, done, t.right, t.mid, hi);
    }
  }

  lemma MoveKeeps(hit: seq<bool>, done: bool, t: Search, done': bool, t': Search, lo: nat, hi: nat)
    requires TreeOk(hit, done, t, lo, hi) && Moves(hit, done, t, done', t')
    ensures TreeOk(hit, done', t', lo, hi)
    ensures done ==> done'
    ensures Hits(t) || (done' && !done) ==> Hits(t')
  {
    if t.Fork? {
      assert TreeOk(hit, done, t.left, lo, t.mid) && TreeOk(hit, done, t.right, t.mid, hi);
      assert Hits(t.left) <==> t.left.at < t.mid;
      assert Hits(t.right) <==> t.right.at < hi;
    }
    if t.Start? && t'.Fork? {
      assert TreeOk(hit, done', t'.left, lo, t'.mid) && TreeOk(hit, done', t'.right, t'.mid, hi);
    }
  }

  /** A hit is never lost: `done` is only ever set by a hit, and a hit survives every combination. */
  lemma {:induction false} StepKeeps(hit: seq<bool>, done: bool, t: Search, done': bool, t': Search, lo: nat, hi: nat)
    requires TreeOk(hit, done, t, lo, hi) && Steps(hit, done, t, done', t')
    ensures TreeOk(hit, done', t', lo, hi)
    ensures done ==> done'
    ensures Hits(t) || (done' && !done) ==> Hits(t')
    decreases t
  {
    if Moves(hit, done, t, done', t') {
      MoveKeeps(hit, done, t, done', t', lo, hi);
    } else if t' == t.(left := t'.left) && Steps(hit, done, t.left, done', t'.left) {
      StepKeeps(hit, done, t.left, done', t'.left, lo, t.mid);
      if done' { DoneKeeps(hit, done, t.right, t.mid, hi); }
    } else {
      StepKeeps(hit, done, t.right, done', t'.right, t.mid, hi);
      if done' { DoneKeeps(hit, done, t.left, lo, t.mid); }
    }
  }

  lemma {:induction false} RunKeeps(hit: seq<bool>, depth: nat, run: seq<State>, i: nat)
    requires Run(hit, depth, run) && i < |run|
    ensures TreeOk(hit, run[i].done, run[i].tree, 0, |hit|) && (run[i].done ==> Hits(run[i].tree))
  {
    if i > 0 {
      RunKeeps(hit, depth, run, i - 1);
      assert StepAt(hit, run, i - 1);
      StepKeeps(hit, run[i - 1].done, run[i - 1].tree, run[i].done, run[i].tree, 0, |hit|);
    }
  }

  /** Under every schedule `parallel_find` returns a matching position if there is one, and `last` if not. */
  lemma FindsIfAny(hit: seq<bool>, depth: nat, run: seq<State>, i: nat)
    requires Run(hit, depth, run) && i < |run| && run[i].tree.Result?
    ensures var at := run[i].tree.at;
      && at <= |hit| && (at < |hit| ==> hit[at]) && (at < |hit| <==> exists j :: 0 <= j < |hit| && hit[j])
  {
    RunKeeps(hit, depth, run, i);
  }

  /** any_of answers whether the search found a place, and means what its sequential form means: under every
      schedule it is true exactly if some element holds. */
  lemma AnyOfAgrees(holds: seq<bool>, depth: nat, run: seq<State>, i: nat)
    requires Run(holds, depth, run) && i < |run| && run[i].tree.Result?
    ensures run[i].tree.at < |holds| <==> exists j :: 0 <= j < |holds| && holds[j]
  {
    FindsIfAny(holds, depth, run, i);
  }

  function Negated(holds: seq<bool>): (r: seq<bool>)
    ensures |r| == |holds| && forall j :: 0 <= j < |r| ==> r[j] == !holds[j]
  {
    seq(|holds|, j requires 0 <= j < |holds| => !holds[j])
  }

  /** all_of searches for an element that fails, and means what its sequential form means. */
  lemma AllOfAgrees(holds: seq<bool>, depth: nat, run: seq<State>, i: nat)
    requires Run(Negated(holds), depth, run) && i < |run| && run[i].tree.Result?
    ensures !(run[i].tree.at < |holds|) <==> forall j :: 0 <= j < |holds| ==> holds[j]
  {
    AnyOfAgrees(Negated(holds), depth, run, i);
  }

  /** none_of is the negation of any_of, and means what its sequential form means. */
  lemma NoneOfAgrees(holds: seq<bool>, depth: nat, run: seq<State>, i: nat)
    requires Run(holds, depth, run) && i < |run| && run[i].tree.Result?
    ensures !(run[i].tree.at < |holds|) <==> forall j :: 0 <= j < |holds| ==> !holds[j]
  {
    AnyOfAgrees(holds, depth, run, i);
  }

  /** The answer of a fork as truth values is the disjunction of the halves' answers. */
  lemma CombineIsOr(t: Search)
    requires t.Fork? && t.left.Result? && t.right.Result? && t.left.hi == t.mid <= t.hi == t.right.hi && t.left.at <= t.mid
    ensures Combine(t).at < t.hi <==> t.right.at < t.right.hi || t.left.at < t.left.hi
  {
  }

  // ---------------------------------------------------------------- every schedule ends

  function StartWork(lo: nat, hi: nat, depth: nat): nat
    requires lo <= hi
    decreases depth
  {
    if IsLeaf(lo, hi, depth) then 2 * (hi - lo) + 2
    else 2 + StartWork(lo, Middle(lo, hi), depth - 1) + StartWork(Middle(lo, hi), hi, depth - 1)
  }

  function Work(t: Search): nat {
    match t
    case Start(lo, hi, depth) => if lo <= hi then StartWork(lo, hi, depth) else 0
    case Scan(_, hi, at) => if at <= hi then 2 * (hi - at) + 1 else 0
    case Test(_, hi, at) => if at <= hi then 2 * (hi - at) else 0
    case Fork(_, _, _, left, right) => 1 + Work(left) + Work(right)
    case Result(_, _, _) => 0
  }

  lemma {:induction false} StepWorks(hit: seq<bool>, done: bool, t: Search, done': bool, t': Search, lo: nat, hi: nat)
    requires TreeOk(hit, done, t, lo, hi) && Steps(hit, done, t, done', t')
    ensures Work(t') < Work(t)
    decreases t
  {
    if Moves(hit, done, t, done', t') {
    } else if t' == t.(left := t'.left) && Steps(hit, done, t.left, done', t'.left) {
      StepWorks(hit, done, t.left, done', t'.left, lo, t.mid);
    } else {
      StepWorks(hit, done, t.right, done', t'.right, t.mid, hi);
    }
  }

  /** Every run is bounded: it has at most as many steps as the first activation's work. */
  lemma {:induction false} RunsEnd(hit: seq<bool>, depth: nat, run: seq<State>, i: nat)
    requires Run(hit, depth, run) && i < |run|
    ensures i + Work(run[i].tree) <= StartWork(0, |hit|, depth)
  {
    if i > 0 {
      RunsEnd(hit, depth, run, i - 1);
      RunKeeps(hit, depth, run, i - 1);
      assert StepAt(hit, run, i - 1);
      StepWorks(hit, run[i - 1].done, run[i - 1].tree, run[i].done, run[i].tree, 0, |hit|);
    }
  }

  // ---------------------------------------------------------------- a hit ends the search

  /** How many activations there are. */
  function Size(t: Search): nat {
    if t.Fork? then 1 + Size(t.left) + Size(t.right) else 1
  }

  /** How many steps are left when `done` is set, whatever the length of the ranges. */
  function StepsLeft(t: Search): (n: nat)
    ensures n <= 2 * Size(t)
  {
    match t
    case Start(_, _, _) => 2
    case Scan(_, _, _) => 1
    case Test(_, _, _) => 2
    case Fork(_, _, _, left, right) => 1 + StepsLeft(left) + StepsLeft(right)
    case Result(_, _, _) => 0
  }

  lemma {:induction false} DoneStepEnds(hit: seq<bool>, t: Search, done': bool, t': Search)
    requires Steps(hit, true, t, done', t')
    ensures done' && StepsLeft(t') < StepsLeft(t) && Size(t') <= Size(t)
    decreases t
  {
    if Moves(hit, true, t, done', t') {
    } else if t' == t.(left := t'.left) && Steps(hit, true, t.left, done', t'.left) {
      DoneStepEnds(hit, t.left, done', t'.left);
    } else {
      DoneStepEnds(hit, t.right, done', t'.right);
    }
  }

  /** Early exit: after a hit the whole search takes at most two more steps for each activation begun so far,
      and begins no new one. */
  lemma {:induction false} HitEndsSearch(hit: seq<bool>, depth: nat, run: seq<State>, i: nat, j: nat)
    requires Run(hit, depth, run) && i <= j < |run| && run[i].done
    ensures run[j].done && (j - i) + StepsLeft(run[j].tree) <= StepsLeft(run[i].tree) <= 2 * Size(run[i].tree)
    ensures Size(run[j].tree) <= Size(run[i].tree)
  {
    if i < j {
      HitEndsSearch(hit, depth, run, i, j - 1);
      assert StepAt(hit, run, j - 1);
      DoneStepEnds(hit, run[j - 1].tree, run[j].done, run[j].tree);
    }
  }

  /** A search that has not returned can step. */
  lemma {:induction false} NeverStuck(hit: seq<bool>, done: bool, t: Search, lo: nat, hi: nat) returns (done': bool, t': Search)
    requires TreeOk(hit, done, t, lo, hi) && !t.Result?
    ensures Steps(hit, done, t, done', t')
    decreases t
  {
    done' := done;
    match t
    case Start(_, _, depth) =>
      t' := if IsLeaf(lo, hi, depth) then Scan(lo, hi, lo) else if done then Result(lo, hi, hi)
        else Fork(lo, Middle(lo, hi), hi, Start(lo, Middle(lo, hi), depth - 1), Start(Middle(lo, hi), hi, depth - 1));
    case Scan(_, _, at) => t' := if at == hi || done then Result(lo, hi, hi) else Test(lo, hi, at);
    case Test(_, _, at) =>
      done' := done || hit[at];
      t' := if hit[at] then Result(lo, hi, at) else Scan(lo, hi, at + 1);
    case Fork(_, mid, _, left, right) =>
      if !left.Result? {
        var l: Search;
        done', l := NeverStuck(hit, done, left, lo, mid);
        t' := t.(left := l);
      } else if !right.Result? {
        var r: Search;
        done', r := NeverStuck(hit, done, right, mid, hi);
        t' := t.(right := r);
      } else {
        t' := Combine(t);
      }
  }

  // ---------------------------------------------------------------- counting

  function Count(hit: seq<bool>): nat {
    if hit == [] then 0 else Count(hit[..|hit| - 1]) + if hit[|hit| - 1] then 1 else 0
  }

  /** `parallel_count_if`: the two halves share nothing, so only their sum matters. */
  function ParallelCount(hit: seq<bool>, depth: nat): nat
    decreases depth
  {
    if |hit| == 0 then 0
    else if |hit| < 2 * MIN_PER_THREAD || depth == 0 then Count(hit)
    else ParallelCount(hit[..|hit| / 2], depth - 1) + ParallelCount(hit[|hit| / 2..], depth - 1)
  }

  /** The sequential count is the number of elements that hold. */
  lemma {:induction false} CountIs(hit: seq<bool>)
    ensures Count(hit) == multiset(hit)[true]
  {
    if hit != [] {
      CountIs(hit[..|hit| - 1]);
      assert hit == hit[..|hit| - 1] + [hit[|hit| - 1]];
    }
  }

  /** For every depth the answer is the number of elements that hold. */
  lemma {:induction false} ParallelCounts(hit: seq<bool>, depth: nat)
    ensures ParallelCount(hit, depth) == multiset(hit)[true]
    decreases depth
  {
    CountIs(hit);
    if |hit| >= 2 * MIN_PER_THREAD && depth > 0 {
      ParallelCounts(hit[..|hit| / 2], depth - 1);
      ParallelCounts(hit[|hit| / 2..], depth - 1);
      assert hit == hit[..|hit| / 2] + hit[|hit| / 2..];
    }
  }
}
