/** The queues of the pool (include/work_stealing_queue.hpp, include/thread_pool.hpp): in which order tasks leave
    them, and how many tasks a call can have. */
module ForkJoinQueues {
  import opened Linearizability
  import opened ForkJoin
  import opened ForkJoinProof
  import opened ForkJoinTheorems
  import opened ForkJoinResults
  import opened ForkJoinCalls

  // ---------------------------------------------------------------- the kinds of steps

  /** The step takes task `c` from place `i` of queue `q`. */
  ghost predicate Takes(s: State, t: nat, s': State, q: int, i: int) {
    && t < |s.threads| && 0 <= q < |s.queues| && 0 <= i < |s.queues[q]| && IsTask(s, s.queues[q][i])
    && s.tasks[s.queues[q][i]].status.Queued? && s.threads[t].pc in {TryLocal, TryShared, TrySteal}
    && s' == TakeStep(s, t, q, s.queues[q][i], s.queues[q][..i] + s.queues[q][i + 1..])
  }

  predicate Looks(s: State, t: nat, s': State) {
    && t < |s.threads| == |s'.threads| && s' == Go(s, t, s'.threads[t]) && s'.threads[t].stack == s.threads[t].stack
    && s.threads[t].pc !in {Begin, Ret} && s'.threads[t].pc != Begin
  }

  /** A leaf, a fork, a return, a look that finds nothing, or the taking of a task: of the thread's own queue the
      front, of the shared one the front, of another worker's the back. */
  ghost predicate Kind(s: State, t: nat, s': State, q: int, i: int) {
    || (May(s, t) && s.threads[t].pc == Begin && IsLeaf(Top(s.threads[t])) && s' == LeafStep(s, t))
    || (MayFork(s, t) && s' == ForkStep(s, t))
    || (May(s, t) && s.threads[t].pc == Ret && s' == RetStep(s, t))
    || Looks(s, t, s')
    || (Takes(s, t, s', q, i)
        && (s.threads[t].pc == TryLocal ==> q == t < s.width && i == 0)
        && (s.threads[t].pc == TryShared ==> q == |s.threads| && i == 0)
        && (s.threads[t].pc == TrySteal ==> 0 <= q < s.width && i == |s.queues[q]| - 1))
  }

  lemma StepKind(s: State, t: nat, from: nat) returns (q: int, i: int)
    requires Inv(s) && May(s, t)
    ensures Kind(s, t, Step(s, t, from), q, i)
  {
    ThreadAt(s, t);
    var th := s.threads[t];
    if th.pc == Begin {
      FrameAt(s, t, |th.stack| - 1);
      assert At(s, t, |th.stack| - 1) == Top(th);
    }
    q, i := 0, 0;
    if th.pc in {TryLocal, TryShared, TrySteal} {
      q := if th.pc == TryLocal then t else if th.pc == TryShared then |s.threads| else (th.from + th.at) % s.width;
      assert 0 <= q < |s.queues|;
      if s.queues[q] != [] {
        i := if th.pc == TrySteal then |s.queues[q]| - 1 else 0;
        QueueAt(s, q, i);
        Cut(s.queues[q]);
      }
    }
    hide Inv;
  }

  // ---------------------------------------------------------------- the order of the queues

  /** A worker's queue has its newest task in front, the shared queue its oldest; tasks are numbered as they are
      submitted. */
  ghost predicate QueueSorted(s: State, q: int)
    requires 0 <= q < |s.queues|
  {
    && (forall i {:trigger s.queues[q][i]} :: 0 <= i < |s.queues[q]| ==> s.queues[q][i] < |s.tasks|)
    && forall i, j {:trigger s.queues[q][i], s.queues[q][j]} :: 0 <= i < j < |s.queues[q]| ==>
         if q < s.width then s.queues[q][j] < s.queues[q][i] else s.queues[q][i] < s.queues[q][j]
  }

  ghost predicate QueuesSorted(s: State) {
    forall q {:trigger s.queues[q]} :: 0 <= q < |s.queues| ==> QueueSorted(s, q)
  }

  lemma ForkSorted(s: State, t: nat)
    requires QueuesSorted(s) && MayFork(s, t)
    ensures QueuesSorted(ForkStep(s, t))
  {
    var s' := ForkStep(s, t);
    forall q | 0 <= q < |s'.queues| ensures QueueSorted(s', q) {
      assert QueueSorted(s, q);
    }
  }

  lemma TakeSorted(s: State, t: nat, s': State, q: int, i: int)
    requires QueuesSorted(s) && Takes(s, t, s', q, i)
    ensures QueuesSorted(s')
  {
    var left := s.queues[q][..i] + s.queues[q][i + 1..];
    forall p | 0 <= p < |s'.queues| ensures QueueSorted(s', p) {
      assert QueueSorted(s, p);
      if p == q {
        assert forall k :: 0 <= k < |left| ==> left[k] == s.queues[q][if k < i then k else k + 1];
      }
    }
  }

  lemma KindSorted(s: State, t: nat, s': State, q: int, i: int)
    requires QueuesSorted(s) && Kind(s, t, s', q, i)
    ensures QueuesSorted(s')
  {
    if MayFork(s, t) && s' == ForkStep(s, t) {
      ForkSorted(s, t);
    } else if Takes(s, t, s', q, i) {
      TakeSorted(s, t, s', q, i);
    } else {
      hide IsLeaf;
      assert |s'.tasks| == |s.tasks| && s'.queues == s.queues && s'.width == s.width;
      forall p | 0 <= p < |s'.queues| ensures QueueSorted(s', p) {
        assert QueueSorted(s, p);
      }
    }
  }

  lemma {:induction false} RunSorted(run: seq<State>, i: nat)
    requires Run(run) && i < |run|
    ensures Inv(run[i]) && QueuesSorted(run[i])
  {
    RunKeeps(run, i);
    if i == 0 {
      assert forall q :: 0 <= q < |run[0].queues| ==> QueueSorted(run[0], q);
    } else {
      hide Inv, Next, QueuesSorted;
      RunSorted(run, i - 1);
      assert StepAt(run, i - 1);
      NextSorted(run[i - 1], run[i]);
    }
  }

  lemma NextSorted(s: State, s': State)
    requires Inv(s) && QueuesSorted(s) && Next(s, s')
    ensures QueuesSorted(s')
  {
    hide Inv, QueuesSorted, Kind, Step, May;
    if t: nat, lo, hi, depth: nat :| MayCall(s, t, lo, hi) && s' == CallFrom(s, t, lo, hi, depth) {
      CallSorted(s, t, lo, hi, depth);
    } else {
      var t: nat, from: nat :| May(s, t) && s' == Step(s, t, from);
      var q, i := StepKind(s, t, from);
      KindSorted(s, t, s', q, i);
    }
  }

  lemma CallSorted(s: State, t: nat, lo: int, hi: int, depth: nat)
    requires QueuesSorted(s) && MayCall(s, t, lo, hi)
    ensures QueuesSorted(CallFrom(s, t, lo, hi, depth))
  {
    var s' := CallFrom(s, t, lo, hi, depth);
    forall q | 0 <= q < |s'.queues| ensures QueueSorted(s', q) {
      assert QueueSorted(s, q);
    }
  }

  /** In every run a worker takes the newest task of its own queue, a thief the oldest of another worker's, and
      the shared queue gives out its oldest. */
  lemma TakesInOrder(run: seq<State>, i: nat, t: nat, from: nat)
    requires Run(run) && i < |run| && May(run[i], t) && |Step(run[i], t, from).threads| == |run[i].threads|
    requires var s, s' := run[i], Step(run[i], t, from); |s'.threads[t].stack| > |s.threads[t].stack| && s.threads[t].pc != Begin
    ensures var s, s' := run[i], Step(run[i], t, from); var c, pc := Top(s'.threads[t]).task, s.threads[t].pc;
      exists q: nat :: q < |s.queues| && c in s.queues[q]
        && (pc == TryLocal ==> q == t && forall d :: d in s.queues[q] ==> d <= c)
        && (pc == TryShared ==> q == |s.threads| && forall d :: d in s.queues[q] ==> c <= d)
        && (pc == TrySteal ==> q < s.width && forall d :: d in s.queues[q] ==> c <= d)
        && pc in {TryLocal, TryShared, TrySteal}
  {
    var s, s' := run[i], Step(run[i], t, from);
    RunSorted(run, i);
    var q, k := StepKind(s, t, from);
    ThreadAt(s, t);
    hide Inv, Step;
    assert Takes(s, t, s', q, k);
    assert QueueSorted(s, q);
    QueueEnds(s, q);
  }

  lemma QueueEnds(s: State, q: nat)
    requires q < |s.queues| && s.queues[q] != [] && QueueSorted(s, q)
    ensures var l := s.queues[q];
      forall d :: d in l ==> if q < s.width then l[|l| - 1] <= d <= l[0] else l[0] <= d
  {
    var l := s.queues[q];
    forall d | d in l ensures if q < s.width then l[|l| - 1] <= d <= l[0] else l[0] <= d {
      var j :| 0 <= j < |l| && l[j] == d;
      assert l[0] < |s.tasks| && l[|l| - 1] < |s.tasks|;
    }
  }

  // ---------------------------------------------------------------- how many tasks there can be

  function Pow2(n: nat): (p: nat)
    ensures p > 0
  {
    if n == 0 then 1 else 2 * Pow2(n - 1)
  }

  /** The tasks that a frame may still submit, its subtree included. */
  function ThreadForks(th: Thread, r: int): nat {
    if th.pc == Begin && th.stack != [] && Top(th).root == r then Pow2(Top(th).depth) - 1 else 0
  }

  /** A task of call `r`, with those that it may still submit. */
  function TaskForks(k: Task, r: int): nat {
    if k.root != r then 0 else if k.status.Queued? then Pow2(k.depth) else 1
  }

  function ThreadsFork(threads: seq<Thread>, r: int): nat {
    if threads == [] then 0 else ThreadForks(threads[0], r) + ThreadsFork(threads[1..], r)
  }

  function TasksFork(tasks: seq<Task>, r: int): nat {
    if tasks == [] then 0 else TasksFork(tasks[..|tasks| - 1], r) + TaskForks(tasks[|tasks| - 1], r)
  }

  /** The tasks of call `r` so far. */
  function TasksOf(tasks: seq<Task>, r: int): nat {
    if tasks == [] then 0 else TasksOf(tasks[..|tasks| - 1], r) + if tasks[|tasks| - 1].root == r then 1 else 0
  }

  lemma {:induction false} TasksForkMore(tasks: seq<Task>, r: int)
    ensures TasksOf(tasks, r) <= TasksFork(tasks, r)
  {
    if tasks != [] { TasksForkMore(tasks[..|tasks| - 1], r); }
  }

  lemma {:induction false} ThreadsForkUpdate(threads: seq<Thread>, t: nat, th: Thread, r: int)
    requires t < |threads|
    ensures ThreadsFork(threads[t := th], r) + ThreadForks(threads[t], r) == ThreadsFork(threads, r) + ThreadForks(th, r)
  {
    var next := threads[t := th];
    if t == 0 {
      assert next[1..] == threads[1..];
    } else {
      ThreadsForkUpdate(threads[1..], t - 1, th, r);
      assert next[1..] == threads[1..][t - 1 := th] && next[0] == threads[0];
    }
  }

  lemma {:induction false} TasksForkUpdate(tasks: seq<Task>, c: nat, k: Task, r: int)
    requires c < |tasks|
    ensures TasksFork(tasks[c := k], r) + TaskForks(tasks[c], r) == TasksFork(tasks, r) + TaskForks(k, r)
  {
    var next, n := tasks[c := k], |tasks| - 1;
    if c == n {
      assert next[..n] == tasks[..n];
    } else {
      TasksForkUpdate(tasks[..n], c, k, r);
      assert next[..n] == tasks[..n][c := k] && next[n] == tasks[n];
    }
  }

  function Forks(s: State, r: int): nat { ThreadsFork(s.threads, r) + TasksFork(s.tasks, r) }

  lemma ForkForks(s: State, t: nat, r: int)
    requires MayFork(s, t)
    ensures Forks(ForkStep(s, t), r) == Forks(s, r)
  {
    var s' := ForkStep(s, t);
    ThreadsForkUpdate(s.threads, t, s'.threads[t], r);
    assert s'.tasks[..|s'.tasks| - 1] == s.tasks;
  }

  lemma TakeForks(s: State, t: nat, s': State, q: int, i: int, r: int)
    requires Takes(s, t, s', q, i)
    ensures Forks(s', r) <= Forks(s, r)
  {
    var c := s.queues[q][i];
    ThreadsForkUpdate(s.threads, t, s'.threads[t], r);
    TasksForkUpdate(s.tasks, c, s'.tasks[c], r);
  }

  lemma RetForks(s: State, t: nat, r: int)
    requires Inv(s) && May(s, t) && s.threads[t].pc == Ret
    ensures Forks(RetStep(s, t), r) <= Forks(s, r)
  {
    var s', f := RetStep(s, t), Top(s.threads[t]);
    FrameAt(s, t, |s.threads[t].stack| - 1);
    assert ForkJoinProof.At(s, t, |s.threads[t].stack| - 1) == f;
    ThreadsForkUpdate(s.threads, t, s'.threads[t], r);
    if f.task != NONE { TasksForkUpdate(s.tasks, f.task, s'.tasks[f.task], r); }
  }

  lemma KindForks(s: State, t: nat, s': State, q: int, i: int, r: int)
    requires Inv(s) && Kind(s, t, s', q, i)
    ensures Forks(s', r) <= Forks(s, r)
  {
    hide Inv, Forks;
    if MayFork(s, t) && s' == ForkStep(s, t) {
      ForkForks(s, t, r);
    } else if Takes(s, t, s', q, i) {
      TakeForks(s, t, s', q, i, r);
    } else if May(s, t) && s.threads[t].pc == Ret && s' == RetStep(s, t) {
      RetForks(s, t, r);
    } else {
      QuietForks(s, t, s', r);
    }
  }

  lemma QuietForks(s: State, t: nat, s': State, r: int)
    requires Looks(s, t, s') || (May(s, t) && s.threads[t].pc == Begin && IsLeaf(Top(s.threads[t])) && s' == LeafStep(s, t))
    ensures Forks(s', r) <= Forks(s, r)
  {
    ThreadsForkUpdate(s.threads, t, s'.threads[t], r);
  }

  /** A call not made yet has no tasks. */
  lemma NoForks(s: State, r: int)
    requires Inv(s) && r >= |s.calls|
    ensures Forks(s, r) == 0
  {
    forall u | 0 <= u < |s.threads| ensures ThreadForks(s.threads[u], r) == 0 {
      if s.threads[u].stack != [] {
        FrameAt(s, u, |s.threads[u].stack| - 1);
        assert ForkJoinProof.At(s, u, |s.threads[u].stack| - 1) == Top(s.threads[u]);
      }
    }
    forall c | 0 <= c < |s.tasks| ensures TaskForks(s.tasks[c], r) == 0 {
      TaskAt(s, c);
    }
    NoThreadForks(s.threads, r);
    NoTaskForks(s.tasks, r);
  }

  lemma {:induction false} NoThreadForks(threads: seq<Thread>, r: int)
    requires forall u :: 0 <= u < |threads| ==> ThreadForks(threads[u], r) == 0
    ensures ThreadsFork(threads, r) == 0
  {
    if threads != [] { NoThreadForks(threads[1..], r); }
  }

  lemma {:induction false} NoTaskForks(tasks: seq<Task>, r: int)
    requires forall c :: 0 <= c < |tasks| ==> TaskForks(tasks[c], r) == 0
    ensures TasksFork(tasks, r) == 0
  {
    if tasks != [] { NoTaskForks(tasks[..|tasks| - 1], r); }
  }

  lemma CallForks(s: State, t: nat, lo: int, hi: int, depth: nat, r: int)
    requires Inv(s) && MayCall(s, t, lo, hi)
    ensures Forks(CallFrom(s, t, lo, hi, depth), r) == Forks(s, r) + if r == |s.calls| then Pow2(depth) - 1 else 0
  {
    var s' := CallFrom(s, t, lo, hi, depth);
    ThreadsForkUpdate(s.threads, t, s'.threads[t], r);
  }

  lemma {:induction false} RunForks(run: seq<State>, labels: seq<PoolLabel>, i: nat, c: nat)
    requires Labelled(run, labels) && c < i <= |labels| && labels[c].Call?
    ensures Forks(run[i], Count(labels, c)) <= Pow2(labels[c].query.depth) - 1
  {
    var s, s', r := run[i - 1], run[i], Count(labels, c);
    assert LabelledAt(run, labels, i - 1);
    RunMade(run, labels, i - 1);
    CountGrows(labels, c, i - 1);
    hide Inv, Forks, Step, May, Labelled;
    if c == i - 1 {
      NoForks(s, r);
      var q := labels[c].query;
      CallForks(s, labels[c].who, q.lo, q.hi, q.depth, r);
    } else {
      RunForks(run, labels, i - 1, c);
      CountGrows(labels, c + 1, i - 1);
      var l := labels[i - 1];
      if l.Call? {
        CallForks(s, l.who, l.query.lo, l.query.hi, l.query.depth, r);
      } else {
        var from: nat :| s' == Step(s, l.who, from);
        var q, k := StepKind(s, l.who, from);
        KindForks(s, l.who, s', q, k, r);
      }
    }
  }

  /** A call of depth d has at most 2^d - 1 tasks at any time, however large its range is. */
  lemma TasksCapped(run: seq<State>, labels: seq<PoolLabel>, i: nat, c: nat)
    requires Labelled(run, labels) && c < i <= |labels| && labels[c].Call?
    ensures TasksOf(run[i].tasks, Count(labels, c)) < Pow2(labels[c].query.depth)
  {
    RunForks(run, labels, i, c);
    TasksForkMore(run[i].tasks, Count(labels, c));
  }
}
